/** file2stream: the progressive writer. A cursor into the container's box
    list; each delta serialises the boxes added since the last one and moves
    the cursor to the end of the list. A box's serialisation is opaque, so
    an output chunk is modelled by the boxes it serialises, in order. The
    interval timer, the stream's start and cancel callbacks and the growth
    of the box list are events. */
module ProgressiveWriter {
  import opened Media

  /** A top-level box of the written container, kept opaque. */
  datatype Box = Box(boxType: string, payload: Bytes)

  /** The output stream's state as its controller sees it. */
  datatype StreamState = Readable | Closed | Cancelled

  /** Enqueueing into a closed or cancelled stream throws (Streams standard,
      ReadableStreamDefaultController.enqueue). */
  datatype WriterError = EnqueueOnClosedStream

  /** The chunks laid end to end. */
  function Concat(chunks: seq<seq<Box>>): seq<Box>
  {
    if |chunks| == 0 then [] else Concat(chunks[..|chunks| - 1]) + chunks[|chunks| - 1]
  }

  /** Concat distributes over appending chunk lists. */
  lemma {:induction false} ConcatAppend(a: seq<seq<Box>>, b: seq<seq<Box>>)
    ensures Concat(a + b) == Concat(a) + Concat(b)
    decreases |b|
  {
    if |b| == 0 {
      assert a + b == a;
    } else {
      assert (a + b)[..|a + b| - 1] == a + b[..|b| - 1];
      ConcatAppend(a, b[..|b| - 1]);
    }
  }

  /** Cutting a box list at increasing cursors and serialising each piece
      gives back the list: successive deltas partition it, in order. */
  lemma {:induction false} DeltasPartition(boxes: seq<Box>, cursors: seq<nat>)
    requires |cursors| > 0 && cursors[0] == 0
    requires forall k :: 0 <= k < |cursors| ==> cursors[k] <= |boxes|
    requires forall k :: 0 < k < |cursors| ==> cursors[k - 1] <= cursors[k]
    ensures Concat(Deltas(boxes, cursors)) == boxes[..cursors[|cursors| - 1]]
    decreases |cursors|
  {
    if |cursors| > 1 {
      var init := cursors[..|cursors| - 1];
      DeltasPartition(boxes, init);
      var lo, hi := cursors[|cursors| - 2], cursors[|cursors| - 1];
      assert Deltas(boxes, cursors) == Deltas(boxes, init) + [boxes[lo..hi]];
      assert boxes[..lo] + boxes[lo..hi] == boxes[..hi];
    }
  }

  /** The pieces of `boxes` between successive cursors. */
  function Deltas(boxes: seq<Box>, cursors: seq<nat>): seq<seq<Box>>
    requires forall k :: 0 <= k < |cursors| ==> cursors[k] <= |boxes|
    requires forall k :: 0 < k < |cursors| ==> cursors[k - 1] <= cursors[k]
  {
    if |cursors| <= 1 then []
    else Deltas(boxes, cursors[..|cursors| - 1]) + [boxes[cursors[|cursors| - 2]..cursors[|cursors| - 1]]]
  }

  class Writer {
    /** file.boxes: the container's box list, which only grows. */
    var boxes: seq<Box>
    /** sendedBoxIdx */
    var sendedBoxIdx: nat
    /** stoped */
    var stopped: bool
    /** Whether `exit` has been installed (the stream's start has run). */
    var exitInstalled: bool
    /** Whether the timeSlice interval is running. */
    var timerActive: bool
    var stream: StreamState
    /** Chunks enqueued into the stream, in order. */
    var chunks: seq<seq<Box>>
    /** How many times onCancel has been called. */
    var cancelCount: nat
    /** Every delta ever serialised, enqueued or not. */
    ghost var serialised: seq<seq<Box>>

    /** The cursor invariant: the deltas so far are exactly the boxes before
        the cursor, in order. */
    ghost predicate CursorValid()
      reads this
    {
      sendedBoxIdx <= |boxes| && Concat(serialised) == boxes[..sendedBoxIdx]
    }

    ghost predicate Valid()
      reads this
    {
      && CursorValid()
      && (timerActive ==> stream == Readable && exitInstalled)
      && (stream == Readable ==> chunks == serialised)
      && (stream == Closed ==> exitInstalled)
    }

    constructor (initial: seq<Box>)
      ensures Valid()
      ensures boxes == initial && sendedBoxIdx == 0 && chunks == []
      ensures !stopped && !exitInstalled && !timerActive && stream == Readable && cancelCount == 0
    {
      boxes := initial;
      sendedBoxIdx := 0;
      stopped, exitInstalled, timerActive := false, false, false;
      stream := Readable;
      chunks := [];
      cancelCount := 0;
      serialised := [];
    }

    /** deltaBuf: serialise boxes[sendedBoxIdx..] in order and move the
        cursor to the end of the list. */
    method DeltaBuf() returns (buf: seq<Box>)
      requires CursorValid()
      modifies this
      ensures CursorValid()
      ensures buf == old(boxes)[old(sendedBoxIdx)..]
      ensures sendedBoxIdx == |boxes|
      ensures serialised == old(serialised) + [buf]
      ensures boxes == old(boxes) && stopped == old(stopped) && exitInstalled == old(exitInstalled)
      ensures timerActive == old(timerActive) && stream == old(stream) && chunks == old(chunks)
      ensures cancelCount == old(cancelCount)
    {
      buf := [];
      for i := sendedBoxIdx to |boxes|
        invariant buf == boxes[sendedBoxIdx..i]
      {
        buf := buf + [boxes[i]];
      }
      ConcatAppend(serialised, [buf]);
      assert Concat([buf]) == buf;
      assert boxes[..sendedBoxIdx] + buf == boxes[..|boxes|];
      sendedBoxIdx := |boxes|;
      serialised := serialised + [buf];
    }

    /** The container adds boxes (new samples, fragments). */
    method AppendBoxes(more: seq<Box>)
      requires Valid()
      modifies this
      ensures Valid()
      ensures boxes == old(boxes) + more
      ensures sendedBoxIdx == old(sendedBoxIdx) && serialised == old(serialised) && chunks == old(chunks)
      ensures stopped == old(stopped) && exitInstalled == old(exitInstalled)
      ensures timerActive == old(timerActive) && stream == old(stream) && cancelCount == old(cancelCount)
    {
      assert (boxes + more)[..sendedBoxIdx] == boxes[..sendedBoxIdx];
      boxes := boxes + more;
    }

    /** One tick of the timeSlice interval: enqueue the delta. */
    method Tick()
      requires Valid() && timerActive
      modifies this
      ensures Valid()
      ensures chunks == old(chunks) + [old(boxes)[old(sendedBoxIdx)..]]
      ensures sendedBoxIdx == |boxes| && Concat(chunks) == boxes
      ensures boxes == old(boxes) && stopped == old(stopped) && exitInstalled == old(exitInstalled)
      ensures timerActive && stream == old(stream) && cancelCount == old(cancelCount)
    {
      var buf := DeltaBuf();
      chunks := chunks + [buf];
      assert boxes[..|boxes|] == boxes;
    }

    /** exit: stop the interval, flush the container (which may add the
        boxes `flushed`), enqueue the last delta and close the stream. On a
        stream already closed or cancelled the enqueue throws: the delta is
        serialised and the cursor moved, but nothing is delivered. */
    method Exit(flushed: seq<Box>) returns (r: Result<(), WriterError>)
      requires Valid() && exitInstalled
      modifies this
      ensures Valid()
      ensures !timerActive && boxes == old(boxes) + flushed && sendedBoxIdx == |boxes|
      ensures old(stream) == Readable ==>
        r.Ok? && stream == Closed && chunks == old(chunks) + [boxes[old(sendedBoxIdx)..]] && Concat(chunks) == boxes
      ensures old(stream) != Readable ==> r.Err? && stream == old(stream) && chunks == old(chunks)
      ensures stopped == old(stopped) && exitInstalled && cancelCount == old(cancelCount)
    {
      timerActive := false;
      AppendBoxes(flushed);
      var buf := DeltaBuf();
      if stream != Readable {
        return Err(EnqueueOnClosedStream);
      }
      chunks := chunks + [buf];
      stream := Closed;
      assert boxes[..|boxes|] == boxes;
      return Ok(());
    }

    /** The stream's start callback: start the interval, install exit, and
        run it at once if stop came first. */
    method Start(flushed: seq<Box>) returns (r: Result<(), WriterError>)
      requires Valid() && !exitInstalled && stream == Readable
      modifies this
      ensures Valid()
      ensures exitInstalled && stopped == old(stopped)
      ensures !old(stopped) ==>
        && r.Ok? && timerActive && boxes == old(boxes) && chunks == old(chunks)
        && sendedBoxIdx == old(sendedBoxIdx) && stream == old(stream)
      ensures old(stopped) ==>
        r.Ok? && !timerActive && stream == Closed && Concat(chunks) == boxes && boxes == old(boxes) + flushed
      ensures cancelCount == old(cancelCount)
    {
      timerActive := true;
      exitInstalled := true;
      r := Ok(());
      if stopped {
        r := Exit(flushed);
      }
    }

    /** stop: mark stopped and run exit if it is installed. Not idempotent: a
        second stop runs exit again, and that enqueue throws. */
    method Stop(flushed: seq<Box>) returns (r: Result<(), WriterError>)
      requires Valid()
      modifies this
      ensures Valid()
      ensures stopped
      ensures !old(exitInstalled) ==>
        && r.Ok? && boxes == old(boxes) && chunks == old(chunks)
        && sendedBoxIdx == old(sendedBoxIdx) && stream == old(stream) && timerActive == old(timerActive)
      ensures old(exitInstalled) && old(stream) == Readable ==>
        && r.Ok? && stream == Closed && !timerActive && boxes == old(boxes) + flushed
        && chunks == old(chunks) + [boxes[old(sendedBoxIdx)..]] && Concat(chunks) == boxes
      ensures old(exitInstalled) && old(stream) != Readable ==>
        && r.Err? && stream == old(stream) && chunks == old(chunks) && boxes == old(boxes) + flushed
      ensures exitInstalled == old(exitInstalled) && cancelCount == old(cancelCount)
    {
      stopped := true;
      r := Ok(());
      if exitInstalled {
        r := Exit(flushed);
      }
    }

    /** The consumer cancels the stream: stop the interval and call
        onCancel; nothing is flushed. */
    method Cancel()
      requires Valid() && stream != Cancelled
      modifies this
      ensures Valid()
      ensures stream == Cancelled && !timerActive && cancelCount == old(cancelCount) + 1
      ensures boxes == old(boxes) && sendedBoxIdx == old(sendedBoxIdx) && chunks == old(chunks)
      ensures stopped == old(stopped) && exitInstalled == old(exitInstalled)
    {
      timerActive := false;
      cancelCount := cancelCount + 1;
      stream := Cancelled;
    }
  }
}
