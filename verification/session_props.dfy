/**
 Properties of the session state machine over whole event sequences: the
 reachable-state invariant, first-writer-wins terminal states, harmless
 late detection results, and the win and time-out scenarios.
 */
module SessionProperties {
  import opened Basics
  import opened Pose
  import opened MouthClassifier
  import opened HeadTracker
  import opened LipRow
  import opened Targets
  import opened Session

  predicate ValidPoses(ps: seq<PoseInput>)
  {
    forall i :: 0 <= i < |ps| ==> ValidDraw(ps[i].draw)
  }

  lemma InitialInv()
    ensures Inv(INITIAL_SESSION)
    ensures PhaseOf(INITIAL_SESSION) == Idle
  {
  }

  /** One pose keeps the invariant. */
  lemma ProcessPoseInv(s: Session, p: PoseInput, videoW: int, videoH: int, sqrt: Sqrt)
    requires Inv(s) && ValidDraw(p.draw)
    ensures Inv(ProcessPose(s, p, videoW, videoH, sqrt))
  {
    var read := RefreshLip(s.lip, s.frameCount, LowerLipY(p.keypoints, videoW, videoH, p.raster, sqrt));
    var tracked := TrackHead(p.keypoints, s.head, s.face, read.indicator, CANVAS_W, CANVAS_H, sqrt);
    var indicator := MouthIndicator(read.indicator, p.keypoints);
    if p.keypoints[NOSE].score >= NOSE_CONFIDENCE && indicator.Some? {
      var n := (indicator.value - p.keypoints[NOSE].y) / tracked.head.scale;
      assert tracked.face.mouth == MouthFrame(s.face.mouth, n);
    }
    assert tracked.face.mouth.baselineFrames <= BASELINE_FRAMES;
  }

  /** A whole detection result keeps the invariant. */
  lemma {:induction false} ProcessPosesInv(s: Session, ps: seq<PoseInput>, videoW: int, videoH: int, sqrt: Sqrt)
    requires Inv(s) && ValidPoses(ps)
    ensures Inv(ProcessPoses(s, ps, videoW, videoH, sqrt))
    decreases |ps|
  {
    if |ps| > 0 {
      ProcessPoseInv(s, ps[0], videoW, videoH, sqrt);
      ProcessPosesInv(ProcessPose(s, ps[0], videoW, videoH, sqrt), ps[1..], videoW, videoH, sqrt);
    }
  }

  /**
   Processing a + b is processing a, then b from where a left off: with the
   one-pose case of ProcessPoses, each pose of a result is processed once,
   in order.
   */
  lemma {:induction false} ProcessPosesSplit(s: Session, a: seq<PoseInput>, b: seq<PoseInput>,
                                             videoW: int, videoH: int, sqrt: Sqrt)
    ensures ProcessPoses(s, a + b, videoW, videoH, sqrt)
      == ProcessPoses(ProcessPoses(s, a, videoW, videoH, sqrt), b, videoW, videoH, sqrt)
    decreases |a|
  {
    if |a| > 0 {
      assert (a + b)[0] == a[0];
      assert (a + b)[1..] == a[1..] + b;
      ProcessPosesSplit(ProcessPose(s, a[0], videoW, videoH, sqrt), a[1..], b, videoW, videoH, sqrt);
    } else {
      assert a + b == b;
    }
  }

  /** Every event keeps the invariant. */
  lemma StepInv(s: Session, e: Event, sqrt: Sqrt)
    requires Inv(s) && ValidEvent(e)
    ensures Inv(Step(s, e, sqrt))
  {
    match e
    case CameraStarted(d) =>
    case Restart(d) =>
    case Stop =>
    case TimerTick(elapsed) =>
    case DetectTick(w, h, inf) =>
      if s.cameraActive && s.frameCount % 2 == 0 && inf.Poses? {
        ProcessPosesInv(s, inf.poses, w, h, sqrt);
      }
  }

  /**
   Every session reachable from the initial state satisfies the invariant:
   in particular the score never exceeds 10, a visible target implies a
   score below 10 and lies inside the canvas, and its radius is in [25, 50].
   */
  lemma {:induction false} ReachableInv(es: seq<Event>, sqrt: Sqrt)
    requires forall i :: 0 <= i < |es| ==> ValidEvent(es[i])
    ensures Inv(RunEvents(INITIAL_SESSION, es, sqrt))
    ensures RunEvents(INITIAL_SESSION, es, sqrt).score <= MAX_SCORE
    ensures RunEvents(INITIAL_SESSION, es, sqrt).target.visible ==> RunEvents(INITIAL_SESSION, es, sqrt).score < MAX_SCORE
    decreases |es|
  {
    if |es| == 0 {
      InitialInv();
    } else {
      ReachableInv(es[..|es| - 1], sqrt);
      StepInv(RunEvents(INITIAL_SESSION, es[..|es| - 1], sqrt), es[|es| - 1], sqrt);
    }
  }

  /**
   A detection result processed while scoring is off (after a stop or a
   game over, including one that arrives late) changes neither the score,
   the target, nor the timer and scoring flags.
   */
  lemma {:induction false} LateResultHarmless(s: Session, ps: seq<PoseInput>, videoW: int, videoH: int, sqrt: Sqrt)
    requires !s.detectRunning
    ensures ProcessPoses(s, ps, videoW, videoH, sqrt).score == s.score
    ensures ProcessPoses(s, ps, videoW, videoH, sqrt).target == s.target
    ensures !ProcessPoses(s, ps, videoW, videoH, sqrt).detectRunning
    ensures ProcessPoses(s, ps, videoW, videoH, sqrt).timerOn == s.timerOn
    ensures ProcessPoses(s, ps, videoW, videoH, sqrt).cameraActive == s.cameraActive
    decreases |ps|
  {
    if |ps| > 0 {
      LateResultHarmless(ProcessPose(s, ps[0], videoW, videoH, sqrt), ps[1..], videoW, videoH, sqrt);
    }
  }

  /**
   Won and Lost are terminal for both periodic tasks: once either task has
   ended the round, no later timer tick or detection result changes the
   phase, the score or the hidden target. Only a stop (or a detector
   failure, which stops) or a restart leaves them.
   */
  lemma TerminalAbsorbs(s: Session, e: Event, sqrt: Sqrt)
    requires Inv(s) && (PhaseOf(s) == Won || PhaseOf(s) == Lost)
    requires e.TimerTick? || (e.DetectTick? && e.inference.Poses?)
    ensures PhaseOf(Step(s, e, sqrt)) == PhaseOf(s)
    ensures Step(s, e, sqrt).score == s.score
    ensures !Step(s, e, sqrt).target.visible
  {
    if e.DetectTick? && s.frameCount % 2 == 0 {
      LateResultHarmless(s, e.inference.poses, e.videoW, e.videoH, sqrt);
    }
  }

  /** A detection result raises the score only while scoring is on. */
  lemma {:induction false} ScoreRisesOnlyWhileRunning(s: Session, ps: seq<PoseInput>, videoW: int, videoH: int, sqrt: Sqrt)
    ensures ProcessPoses(s, ps, videoW, videoH, sqrt).score > s.score ==> s.detectRunning
    decreases |ps|
  {
    if !s.detectRunning {
      LateResultHarmless(s, ps, videoW, videoH, sqrt);
    }
    if |ps| > 0 {
      ScoreRisesOnlyWhileRunning(ProcessPose(s, ps[0], videoW, videoH, sqrt), ps[1..], videoW, videoH, sqrt);
    }
  }

  /** The same at the level of events: only a detection frame in a running round raises the score. */
  lemma StepScoreRise(s: Session, e: Event, sqrt: Sqrt)
    requires Step(s, e, sqrt).score > s.score
    ensures e.DetectTick? && PhaseOf(s) == Running
  {
    if e.DetectTick? && s.cameraActive && s.frameCount % 2 == 0 && e.inference.Poses? {
      ScoreRisesOnlyWhileRunning(s, e.inference.poses, e.videoW, e.videoH, sqrt);
    }
  }

  /** One pose's view of the lip cache: the frame it arrives on and the estimate sampling would give. */
  datatype LipSample = LipSample(frame: int, estimate: Option<real>)

  /** The lip cache after a sequence of poses, oldest first. */
  function CacheRun(c: LipCache, xs: seq<LipSample>): LipCache
    decreases |xs|
  {
    if |xs| == 0 then c
    else
      var x := xs[|xs| - 1];
      RefreshLip(CacheRun(c, xs[..|xs| - 1]), x.frame, x.estimate).cache
  }

  /**
   The cached lip row is always either the initial one or a non-null
   estimate of one of the poses; it never changes while every estimate is
   null, and once non-null it stays non-null.
   */
  lemma {:induction false} CacheHoldsSampledEstimate(c: LipCache, xs: seq<LipSample>)
    ensures CacheRun(c, xs).y == c.y
      || exists k :: 0 <= k < |xs| && xs[k].estimate.Some? && CacheRun(c, xs).y == xs[k].estimate
    ensures (forall k :: 0 <= k < |xs| ==> xs[k].estimate.None?) ==> CacheRun(c, xs).y == c.y
    ensures c.y.Some? ==> CacheRun(c, xs).y.Some?
    decreases |xs|
  {
    if |xs| > 0 {
      var ys := xs[..|xs| - 1];
      CacheHoldsSampledEstimate(c, ys);
      assert forall k :: 0 <= k < |ys| ==> ys[k] == xs[k];
      if CacheRun(c, xs).y != CacheRun(c, ys).y {
        assert CacheRun(c, xs).y == xs[|xs| - 1].estimate;
      } else if CacheRun(c, ys).y != c.y {
        var k :| 0 <= k < |ys| && ys[k].estimate.Some? && CacheRun(c, ys).y == ys[k].estimate;
        assert xs[k] == ys[k];
      }
    }
  }

  /** A run of scoring hits, one per draw. */
  function Hits(s: Session, ds: seq<Draw>): Session
    decreases |ds|
  {
    if |ds| == 0 then s else Hits(RegisterHit(s, ds[0]), ds[1..])
  }

  /**
   From a running round with score k, n hits (k + n <= 10) raise the score
   by exactly n; every hit short of the tenth respawns a visible target and
   the round stays running; the tenth ends it as Won with the target hidden.
   */
  lemma {:induction false} HitsScore(s: Session, ds: seq<Draw>)
    requires Inv(s) && PhaseOf(s) == Running
    requires s.score + |ds| <= MAX_SCORE
    requires forall i :: 0 <= i < |ds| ==> ValidDraw(ds[i])
    ensures Inv(Hits(s, ds))
    ensures Hits(s, ds).score == s.score + |ds|
    ensures PhaseOf(Hits(s, ds)) == (if s.score + |ds| == MAX_SCORE then Won else Running)
    ensures Hits(s, ds).target.visible <==> s.score + |ds| < MAX_SCORE
    decreases |ds|
  {
    if |ds| > 0 {
      var s1 := RegisterHit(s, ds[0]);
      if s1.score < MAX_SCORE {
        HitsScore(s1, ds[1..]);
      }
    }
  }

  /** Ten hits on a freshly restarted round win it. */
  lemma TenHitsWin(s: Session, start: Draw, ds: seq<Draw>)
    requires Inv(s) && s.cameraActive && ValidDraw(start)
    requires |ds| == MAX_SCORE && forall i :: 0 <= i < |ds| ==> ValidDraw(ds[i])
    ensures Hits(RestartGame(s, start), ds).score == MAX_SCORE
    ensures PhaseOf(Hits(RestartGame(s, start), ds)) == Won
    ensures !Hits(RestartGame(s, start), ds).target.visible
  {
    HitsScore(RestartGame(s, start), ds);
  }

  /**
   A running round is lost, with its score kept and the target hidden, on
   the first timer tick at or past 15 seconds; an earlier tick only updates
   the remaining time.
   */
  lemma TimeoutLoses(s: Session, elapsed: real)
    requires Inv(s) && PhaseOf(s) == Running && elapsed >= 0.0
    ensures elapsed >= GAME_TIME_LIMIT ==>
      PhaseOf(TickTimer(s, elapsed)) == Lost && TickTimer(s, elapsed).score == s.score
      && !TickTimer(s, elapsed).target.visible && TickTimer(s, elapsed).remaining == 0.0
    ensures elapsed < GAME_TIME_LIMIT ==>
      PhaseOf(TickTimer(s, elapsed)) == Running && TickTimer(s, elapsed).remaining == GAME_TIME_LIMIT - elapsed
  {
  }

  /** A round without hits that reaches 15 seconds ends Lost with score 0. */
  lemma ZeroHitTimeout(s: Session, start: Draw, elapsed: real)
    requires Inv(s) && s.cameraActive && ValidDraw(start) && elapsed >= GAME_TIME_LIMIT
    ensures PhaseOf(TickTimer(RestartGame(s, start), elapsed)) == Lost
    ensures TickTimer(RestartGame(s, start), elapsed).score == 0
  {
    TimeoutLoses(RestartGame(s, start), elapsed);
  }
}
