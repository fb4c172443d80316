/** findStartSampleIdx: where decoding resumes for a seek target. The model
    follows the code exactly, including its two edge cases: a sync target
    yields 0 (not the target's index), and a non-sync target at index 0
    yields -1. */
module KeyframeLocator {
  import opened Media

  /** The error thrown as 'Not found frame'. */
  datatype LocateError = NotFoundFrame

  /** `samples.findIndex(s => s.cts >= time)`: the first sample at or after
      the target time, absent when every sample is earlier. */
  function FirstAtOrAfter(samples: seq<Sample>, time: real): (r: Option<nat>)
    ensures r.Some? ==> r.value < |samples| && samples[r.value].cts as real >= time
    ensures r.Some? ==> forall j :: 0 <= j < r.value ==> samples[j].cts as real < time
    ensures r.None? <==> forall j :: 0 <= j < |samples| ==> samples[j].cts as real < time
  {
    if |samples| == 0 then None
    else if samples[0].cts as real >= time then Some(0)
    else match FirstAtOrAfter(samples[1..], time)
      case None => None
      case Some(k) => Some(k + 1)
  }

  /** The backward scan from index i: stops at an index <= 0 (returning it
      unchecked) or at the first sync sample met going down. */
  function ScanBack(samples: seq<Sample>, i: int): (r: int)
    requires i < |samples|
    ensures i <= 0 ==> r == i
    ensures i > 0 ==> 0 <= r <= i && (r == 0 || samples[r].isSync)
    ensures i > 0 ==> forall k :: r < k <= i ==> !samples[k].isSync
    decreases i
  {
    if i <= 0 || samples[i].isSync then i else ScanBack(samples, i - 1)
  }

  /** What findStartSampleIdx returns or throws. */
  function StartIndex(samples: seq<Sample>, time: real): (r: Result<int, LocateError>)
    ensures r.Err? <==> forall j :: 0 <= j < |samples| ==> samples[j].cts as real < time
    ensures r.Ok? ==> -1 <= r.value < |samples|
  {
    match FirstAtOrAfter(samples, time)
    case None => Err(NotFoundFrame)
    case Some(e) => if samples[e].isSync then Ok(0) else Ok(ScanBack(samples, e - 1))
  }

  /** The locator as the source writes it: a findIndex, then a
      `while (true)` loop that walks a mutable start index down. */
  method FindStartSampleIdx(samples: seq<Sample>, time: real) returns (r: Result<int, LocateError>)
    ensures r == StartIndex(samples, time)
  {
    var endIdx := -1;
    var i := 0;
    while i < |samples|
      invariant 0 <= i <= |samples|
      invariant endIdx == -1
      invariant forall j :: 0 <= j < i ==> samples[j].cts as real < time
    {
      if samples[i].cts as real >= time {
        endIdx := i;
        break;
      }
      i := i + 1;
    }
    if endIdx < 0 {
      r := Err(NotFoundFrame);
    } else {
      var startIdx := 0;
      if !samples[endIdx].isSync {
        startIdx := endIdx - 1;
        while true
          invariant -1 <= startIdx < endIdx
          invariant ScanBack(samples, startIdx) == ScanBack(samples, endIdx - 1)
          decreases startIdx + 1
        {
          if startIdx <= 0 {
            break;
          }
          if samples[startIdx].isSync {
            break;
          }
          startIdx := startIdx - 1;
        }
      }
      r := Ok(startIdx);
    }
  }

  /** It throws exactly when no sample reaches the target time. */
  lemma NotFoundIff(samples: seq<Sample>, time: real)
    ensures StartIndex(samples, time) == Err(NotFoundFrame)
        <==> forall j :: 0 <= j < |samples| ==> samples[j].cts as real < time
  {
  }

  /** A sync target restarts decoding from index 0, not from the target. */
  lemma SyncTargetGivesZero(samples: seq<Sample>, time: real, e: nat)
    requires FirstAtOrAfter(samples, time) == Some(e) && samples[e].isSync
    ensures StartIndex(samples, time) == Ok(0)
  {
  }

  /** A non-sync target at index 0 yields -1. */
  lemma NonSyncFirstGivesMinusOne(samples: seq<Sample>, time: real)
    requires FirstAtOrAfter(samples, time) == Some(0) && !samples[0].isSync
    ensures StartIndex(samples, time) == Ok(-1)
  {
  }

  /** A non-sync target after index 0: the result lies before the target, is
      sync unless it is 0 (index 0 is taken unchecked), and no sample
      strictly between it and the target is sync. */
  lemma NonSyncTargetScansBack(samples: seq<Sample>, time: real, e: nat)
    requires FirstAtOrAfter(samples, time) == Some(e) && !samples[e].isSync && e >= 1
    ensures StartIndex(samples, time).Ok?
    ensures var r := StartIndex(samples, time).value;
      && 0 <= r <= e - 1
      && (r == 0 || samples[r].isSync)
      && forall k :: r < k < e ==> !samples[k].isSync
  {
  }

  /** Any non-negative result is at or before the target and, if before it,
      earlier than the requested time. */
  lemma ResultPrecedesTarget(samples: seq<Sample>, time: real, e: nat)
    requires FirstAtOrAfter(samples, time) == Some(e)
    ensures StartIndex(samples, time).Ok? && StartIndex(samples, time).value <= e
    ensures 0 <= StartIndex(samples, time).value < e
        ==> samples[StartIndex(samples, time).value].cts as real < time
  {
  }

  /** Thirty one-unit samples (timescale 30) with a sync sample every ten. */
  function GopTrack(): (ss: seq<Sample>)
    ensures |ss| == 30
    ensures forall k :: 0 <= k < 30 ==> ss[k].cts == k && ss[k].isSync == (k % 10 == 0)
  {
    seq(30, k requires 0 <= k < 30 => Sample([], k, k, 1, k % 10 == 0, 30))
  }

  /** Seeking to 0.35 s lands between samples 10 and 11; the target is the
      non-sync sample 11 and decoding resumes at the sync sample 10. */
  lemma SeekBetweenKeyframes()
    ensures StartIndex(GopTrack(), 0.35 * 30.0) == Ok(10)
  {
    var ss := GopTrack();
    var f := FirstAtOrAfter(ss, 0.35 * 30.0);
    assert ss[11].cts as real >= 0.35 * 30.0;
    assert f.Some?;
    assert ss[10].cts as real < 0.35 * 30.0;
    assert !ss[11].isSync && ss[10].isSync;
  }

  /** Seeking exactly onto the keyframe at 1/3 s: the code restarts from the
      first sample rather than from sample 10. */
  lemma SeekOntoKeyframe()
    ensures StartIndex(GopTrack(), 10.0) == Ok(0)
  {
    var ss := GopTrack();
    var f := FirstAtOrAfter(ss, 10.0);
    assert ss[10].cts as real >= 10.0;
    assert f.Some?;
    assert ss[9].cts as real < 10.0;
    assert ss[10].isSync;
  }
}
