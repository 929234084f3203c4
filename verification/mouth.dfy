/**
 The mouth classifier of calculateHeadState (script.js:590-647): each frame
 with a usable indicator contributes one normalised sample
 `(indicatorY - nose.y) / scale`. The first 30 samples build an arithmetic
 mean baseline, after which the baseline drifts 0.2% towards each sample;
 the sample is low-passed 12% into `smoothed`; and a debounced decision
 with a dead-band between baseline+0.04 and baseline+0.06 flips `open` only
 after 3 consecutive qualifying frames.
 */
module MouthClassifier {
  import opened Basics

  const BASELINE_FRAMES: nat := 30
  const DELTA_OPEN := 0.06
  const DELTA_CLOSE := 0.04
  const REQUIRE_FRAMES_OPEN: nat := 3
  const REQUIRE_FRAMES_CLOSE: nat := 3
  const SMOOTH_GAIN := 0.12
  const DRIFT_GAIN := 0.002

  /**
   The calibration fields the program keeps on `prevState`, together with
   the committed `mouthOpen` decision.
   */
  datatype MouthState = MouthState(
    open: bool,
    openCount: nat,
    closeCount: nat,
    smoothed: real,
    baselineSum: real,
    baselineFrames: nat,
    baselineAvg: real)

  /**
   The state before any sample: every calibration field starts at 0 (the
   program creates them lazily with value 0) and the mouth is closed.
   */
  const INITIAL := MouthState(false, 0, 0, 0.0, 0.0, 0, 0.0)

  /** Where one frame's smoothed value falls relative to the thresholds. */
  datatype Zone = Above | Below | DeadBand

  /**
   The baseline a frame is judged against: the mean including this sample
   while calibrating, else the baseline as it stood (before this frame's
   drift).
   */
  function JudgedBaseline(m: MouthState, n: real): real
  {
    if m.baselineFrames < BASELINE_FRAMES then
      (m.baselineSum + n) / (m.baselineFrames + 1) as real
    else m.baselineAvg
  }

  function SmoothedAfter(m: MouthState, n: real): real
  {
    Approach(m.smoothed, n, SMOOTH_GAIN)
  }

  function ZoneOf(m: MouthState, n: real): Zone
  {
    var base := JudgedBaseline(m, n);
    var s := SmoothedAfter(m, n);
    if s > base + DELTA_OPEN then Above
    else if s < base + DELTA_CLOSE then Below
    else DeadBand
  }

  /** One frame with normalised sample n. */
  function MouthFrame(m: MouthState, n: real): (r: MouthState)
    // calibration: the count saturates at 30, the sum collects exactly the first 30 samples
    ensures r.baselineFrames == (if m.baselineFrames < BASELINE_FRAMES then m.baselineFrames + 1 else m.baselineFrames)
    ensures r.baselineSum == (if m.baselineFrames < BASELINE_FRAMES then m.baselineSum + n else m.baselineSum)
    // while calibrating the baseline is the mean of the collected samples
    ensures r.baselineFrames < BASELINE_FRAMES ==> r.baselineAvg == r.baselineSum / r.baselineFrames as real
    // once calibrated (including the 30th sample) the judged baseline moves 0.2% towards n
    ensures r.baselineFrames >= BASELINE_FRAMES ==>
      Between(JudgedBaseline(m, n), r.baselineAvg, n)
      && n - r.baselineAvg == (1.0 - DRIFT_GAIN) * (n - JudgedBaseline(m, n))
    ensures Between(m.smoothed, r.smoothed, n)
    ensures n - r.smoothed == (1.0 - SMOOTH_GAIN) * (n - m.smoothed)
    // the debounce: a qualifying frame extends its own run and breaks the other one
    ensures ZoneOf(m, n) == Above ==>
      r.openCount == m.openCount + 1 && r.closeCount == 0
      && (r.open <==> m.open || r.openCount >= REQUIRE_FRAMES_OPEN)
    ensures ZoneOf(m, n) == Below ==>
      r.closeCount == m.closeCount + 1 && r.openCount == 0
      && (r.open <==> m.open && r.closeCount < REQUIRE_FRAMES_CLOSE)
    ensures ZoneOf(m, n) == DeadBand ==>
      r.openCount == 0 && r.closeCount == 0 && r.open == m.open
  {
    var calibrating := m.baselineFrames < BASELINE_FRAMES;
    var sum := if calibrating then m.baselineSum + n else m.baselineSum;
    var frames := if calibrating then m.baselineFrames + 1 else m.baselineFrames;
    var avg := if calibrating then sum / frames as real else m.baselineAvg;
    var smoothed := SmoothedAfter(m, n);
    var zone := ZoneOf(m, n);
    var openCount := if zone == Above then m.openCount + 1 else 0;
    var closeCount := if zone == Below then m.closeCount + 1 else 0;
    var open :=
      if zone == Above && openCount >= REQUIRE_FRAMES_OPEN then true
      else if zone == Below && closeCount >= REQUIRE_FRAMES_CLOSE then false
      else m.open;
    var drifted := if frames >= BASELINE_FRAMES then Approach(avg, n, DRIFT_GAIN) else avg;
    MouthState(open, openCount, closeCount, smoothed, sum, frames, drifted)
  }

  /** Lemma-level fact: one frame flips the decision only at the end of a long enough run. */
  lemma FrameFlip(m: MouthState, n: real)
    ensures MouthFrame(m, n).open && !m.open ==>
      ZoneOf(m, n) == Above && MouthFrame(m, n).openCount >= REQUIRE_FRAMES_OPEN
    ensures !MouthFrame(m, n).open && m.open ==>
      ZoneOf(m, n) == Below && MouthFrame(m, n).closeCount >= REQUIRE_FRAMES_CLOSE
  {
  }

  /** The classifier after a sequence of samples, oldest first. */
  function Run(m: MouthState, xs: seq<real>): MouthState
    decreases |xs|
  {
    if |xs| == 0 then m else MouthFrame(Run(m, xs[..|xs| - 1]), xs[|xs| - 1])
  }

  function Sum(xs: seq<real>): real
    decreases |xs|
  {
    if |xs| == 0 then 0.0 else Sum(xs[..|xs| - 1]) + xs[|xs| - 1]
  }

  /** The zone frame k of a run lands in. */
  function ZoneAt(m: MouthState, xs: seq<real>, k: nat): Zone
    requires k < |xs|
  {
    ZoneOf(Run(m, xs[..k]), xs[k])
  }

  lemma PrefixOfPrefix(xs: seq<real>, k: nat)
    requires k < |xs|
    ensures xs[..|xs| - 1][..k] == xs[..k]
  {
  }

  /**
   The baseline count never exceeds 30 and counts every sample until then;
   from the start the sum is the sum of the samples seen, and while fewer
   than 30 have been seen the baseline is their mean.
   */
  lemma {:induction false} BaselineIsMean(xs: seq<real>)
    requires |xs| <= BASELINE_FRAMES
    ensures Run(INITIAL, xs).baselineFrames == |xs|
    ensures Run(INITIAL, xs).baselineSum == Sum(xs)
    ensures 0 < |xs| < BASELINE_FRAMES ==> Run(INITIAL, xs).baselineAvg == Sum(xs) / |xs| as real
  {
    if |xs| > 0 {
      BaselineIsMean(xs[..|xs| - 1]);
    }
  }

  /** However many samples arrive, the baseline count saturates at 30. */
  lemma {:induction false} BaselineFramesSaturate(m: MouthState, xs: seq<real>)
    requires m.baselineFrames <= BASELINE_FRAMES
    ensures Run(m, xs).baselineFrames == MinInt(m.baselineFrames + |xs|, BASELINE_FRAMES)
    decreases |xs|
  {
    if |xs| > 0 {
      BaselineFramesSaturate(m, xs[..|xs| - 1]);
    }
  }

  /**
   The open counter is the length of the current run of Above frames: it
   grows by at most one per frame, and the last `openCount` frames of the
   run (all of them if it is longer than the run) were Above.
   */
  lemma {:induction false} OpenCountIsAboveRun(m: MouthState, xs: seq<real>)
    ensures Run(m, xs).openCount <= m.openCount + |xs|
    ensures forall k :: 0 <= k < |xs| && |xs| - Run(m, xs).openCount <= k ==> ZoneAt(m, xs, k) == Above
    decreases |xs|
  {
    if |xs| > 0 {
      var ys := xs[..|xs| - 1];
      OpenCountIsAboveRun(m, ys);
      forall k | 0 <= k < |xs| - 1
        ensures ZoneAt(m, xs, k) == ZoneAt(m, ys, k)
      {
        PrefixOfPrefix(xs, k);
      }
    }
  }

  /** The symmetric statement for the close counter and Below frames. */
  lemma {:induction false} CloseCountIsBelowRun(m: MouthState, xs: seq<real>)
    ensures Run(m, xs).closeCount <= m.closeCount + |xs|
    ensures forall k :: 0 <= k < |xs| && |xs| - Run(m, xs).closeCount <= k ==> ZoneAt(m, xs, k) == Below
    decreases |xs|
  {
    if |xs| > 0 {
      var ys := xs[..|xs| - 1];
      CloseCountIsBelowRun(m, ys);
      forall k | 0 <= k < |xs| - 1
        ensures ZoneAt(m, xs, k) == ZoneAt(m, ys, k)
      {
        PrefixOfPrefix(xs, k);
      }
    }
  }

  /**
   Starting with no pending open run, the mouth can become open on the last
   frame of a run only if that frame and the two before it were all Above.
   */
  lemma OpeningNeedsThreeAbove(m: MouthState, xs: seq<real>)
    requires m.openCount == 0 && |xs| > 0
    requires !Run(m, xs[..|xs| - 1]).open && Run(m, xs).open
    ensures |xs| >= REQUIRE_FRAMES_OPEN
    ensures forall k :: |xs| - REQUIRE_FRAMES_OPEN <= k < |xs| ==> ZoneAt(m, xs, k) == Above
  {
    FrameFlip(Run(m, xs[..|xs| - 1]), xs[|xs| - 1]);
    OpenCountIsAboveRun(m, xs);
  }

  /** Starting with no pending close run, closing needs three Below frames in a row. */
  lemma ClosingNeedsThreeBelow(m: MouthState, xs: seq<real>)
    requires m.closeCount == 0 && |xs| > 0
    requires Run(m, xs[..|xs| - 1]).open && !Run(m, xs).open
    ensures |xs| >= REQUIRE_FRAMES_CLOSE
    ensures forall k :: |xs| - REQUIRE_FRAMES_CLOSE <= k < |xs| ==> ZoneAt(m, xs, k) == Below
  {
    FrameFlip(Run(m, xs[..|xs| - 1]), xs[|xs| - 1]);
    CloseCountIsBelowRun(m, xs);
  }

  /**
   A run whose every frame lands in the dead-band never changes the
   decision, and it leaves both counters at zero.
   */
  lemma {:induction false} DeadBandFreezes(m: MouthState, xs: seq<real>)
    requires forall k :: 0 <= k < |xs| ==> ZoneAt(m, xs, k) == DeadBand
    ensures Run(m, xs).open == m.open
    ensures |xs| > 0 ==> Run(m, xs).openCount == 0 && Run(m, xs).closeCount == 0
    decreases |xs|
  {
    if |xs| > 0 {
      var ys := xs[..|xs| - 1];
      forall k | 0 <= k < |ys|
        ensures ZoneAt(m, ys, k) == DeadBand
      {
        PrefixOfPrefix(xs, k);
        assert ZoneAt(m, xs, k) == DeadBand;
      }
      DeadBandFreezes(m, ys);
      assert ZoneAt(m, xs, |xs| - 1) == DeadBand;
    }
  }
}
