/**
 The game session: the state effects of restartGame (script.js:194-234),
 the 100 ms timer it starts, handleGameOver (script.js:160-165),
 stopDetectionAndCamera (script.js:102-127) and the per-pose block of
 detect() (script.js:364-431) that refreshes the lip-row cache, runs the
 head tracker and scores a collision. Every asynchronous source is an
 event applied to one session value.
 */
module Session {
  import opened Basics
  import opened Pose
  import opened MouthClassifier
  import opened HeadTracker
  import opened LipRow
  import opened Targets

  const CANVAS_W := 640
  const CANVAS_H := 480
  const GAME_TIME_LIMIT := 15.0
  const LOWER_LIP_INTERVAL := 4
  const FALLBACK_SCALE := 220.0

  /** The last non-null lip-row estimate and the frame it was last sampled on. */
  datatype LipCache = LipCache(y: Option<real>, frame: int)

  datatype Session = Session(
    score: nat,
    target: Target,
    cameraActive: bool,   // isCameraActive
    detectRunning: bool,  // window._isDetectRunning
    timerOn: bool,        // gameTimer holds a live interval
    remaining: real,      // seconds left, as last shown
    head: Head,           // stableHead
    face: Face,           // prevState
    lip: LipCache,        // prevState._lastLowerLipY / _lastLowerLipFrame
    frameCount: nat)

  /** The state once the detector is loaded and before the camera starts. */
  const INITIAL_SESSION := Session(
    0, Target(0.0, 0.0, 30.0, false), false, false, false, GAME_TIME_LIMIT,
    Head(CANVAS_W as real / 2.0, CANVAS_H as real / 2.0, 220.0),
    Face(true, INITIAL), LipCache(None, 0), 0)

  /** One detected subject, with the raster sampled for its crop and the draws for a respawn. */
  datatype PoseInput = PoseInput(keypoints: Keypoints, raster: Option<seq<Pixel>>, draw: Draw)

  /** The landmark provider's answer on an inference frame. */
  datatype Inference = DetectorFailed | Poses(poses: seq<PoseInput>)

  datatype Event =
    | CameraStarted(draw: Draw)   // startDetectionAndCamera succeeded
    | Restart(draw: Draw)         // the restart button
    | Stop                        // camera toggled off, or the camera failed to start
    | TimerTick(elapsed: real)    // the 100 ms interval; seconds since the round started
    | DetectTick(videoW: int, videoH: int, inference: Inference)  // one animation frame

  predicate ValidEvent(e: Event)
  {
    match e
    case CameraStarted(d) => ValidDraw(d)
    case Restart(d) => ValidDraw(d)
    case Stop => true
    case TimerTick(elapsed) => elapsed >= 0.0
    case DetectTick(_, _, inf) =>
      inf.Poses? ==> forall i :: 0 <= i < |inf.poses| ==> ValidDraw(inf.poses[i].draw)
  }

  /** The circle lies inside the canvas. */
  predicate InsideCanvas(t: Target)
  {
    t.radius <= t.x <= CANVAS_W as real - t.radius && t.radius <= t.y <= CANVAS_H as real - t.radius
  }

  /** What every reachable session satisfies. */
  predicate Inv(s: Session)
  {
    && s.score <= MAX_SCORE
    && s.target.visible == s.detectRunning
    && (s.detectRunning ==> s.cameraActive && s.score < MAX_SCORE)
    && s.timerOn == s.detectRunning
    && MIN_RADIUS <= s.target.radius <= MAX_RADIUS
    && (s.target.visible ==> InsideCanvas(s.target))
    && 0.0 <= s.remaining <= GAME_TIME_LIMIT
    && s.face.mouth.baselineFrames <= BASELINE_FRAMES
  }

  datatype Phase = Idle | Running | Won | Lost

  function PhaseOf(s: Session): Phase
  {
    if !s.cameraActive then Idle
    else if s.detectRunning then Running
    else if s.score >= MAX_SCORE then Won
    else Lost
  }

  /** handleGameOver: clear the timer, stop scoring, hide the target; nothing else changes. */
  function GameOver(s: Session): (r: Session)
    ensures !r.timerOn && !r.detectRunning && !r.target.visible
    ensures r.score == s.score && r.cameraActive == s.cameraActive && r.remaining == s.remaining
    ensures r.target.radius == s.target.radius
    ensures r.head == s.head && r.face == s.face && r.lip == s.lip && r.frameCount == s.frameCount
  {
    s.(timerOn := false, detectRunning := false, target := s.target.(visible := false))
  }

  /**
   stopDetectionAndCamera: as game over, and the camera goes off and the
   timer display is reset; the score variable itself is kept (only the
   display shows 0).
   */
  function StopCamera(s: Session): (r: Session)
    ensures !r.cameraActive && !r.timerOn && !r.detectRunning && !r.target.visible
    ensures r.score == s.score && r.remaining == GAME_TIME_LIMIT
    ensures r.target.radius == s.target.radius
    ensures r.head == s.head && r.face == s.face && r.lip == s.lip && r.frameCount == s.frameCount
  {
    GameOver(s).(cameraActive := false, remaining := GAME_TIME_LIMIT)
  }

  /**
   restartGame: a no-op unless the camera is active; otherwise the score is
   reset, a target spawned and the timer and scoring started. Head tracking
   and mouth calibration carry over.
   */
  function RestartGame(s: Session, d: Draw): (r: Session)
    ensures !s.cameraActive ==> r == s
    ensures s.cameraActive ==>
      && r.score == 0 && r.cameraActive && r.detectRunning && r.timerOn
      && r.target.visible && r.remaining == GAME_TIME_LIMIT
      && r.target.radius == RadiusFor(if s.head.scale != 0.0 then s.head.scale else FALLBACK_SCALE)
      && (ValidDraw(d) ==> InsideCanvas(r.target))
      // the spawn is the one the draw places, on the head scale or 220 when it is 0
      && r.target == UpdateTargetPosition(s.target, 0, if s.head.scale != 0.0 then s.head.scale else FALLBACK_SCALE,
                                          CANVAS_W as real, CANVAS_H as real, d)
      && r.head == s.head && r.face == s.face && r.lip == s.lip && r.frameCount == s.frameCount
  {
    if !s.cameraActive then s
    else
      var scale := if s.head.scale != 0.0 then s.head.scale else FALLBACK_SCALE;
      var t := UpdateTargetPosition(s.target, 0, scale, CANVAS_W as real, CANVAS_H as real, d);
      s.(score := 0, timerOn := true, remaining := GAME_TIME_LIMIT, target := t, detectRunning := true)
  }

  /**
   One tick of the round timer: remaining = max(0, 15 - elapsed); at zero
   the timer stops, and the round is lost only if the score is below the
   maximum.
   */
  function TickTimer(s: Session, elapsed: real): (r: Session)
    ensures !s.timerOn ==> r == s
    ensures r.score == s.score && r.cameraActive == s.cameraActive
    // the timer touches neither tracking, the lip cache, the frame counter nor the target's geometry
    ensures r.head == s.head && r.face == s.face && r.lip == s.lip && r.frameCount == s.frameCount
    ensures r.target.x == s.target.x && r.target.y == s.target.y && r.target.radius == s.target.radius
    ensures s.timerOn && elapsed < GAME_TIME_LIMIT ==>
      r == s.(remaining := GAME_TIME_LIMIT - elapsed)
    ensures s.timerOn && elapsed >= GAME_TIME_LIMIT ==>
      r.remaining == 0.0 && !r.timerOn
      && (s.score < MAX_SCORE ==> !r.detectRunning && !r.target.visible)
      && (s.score >= MAX_SCORE ==> r.detectRunning == s.detectRunning && r.target == s.target)
  {
    if !s.timerOn then s
    else
      var remaining := if GAME_TIME_LIMIT - elapsed > 0.0 then GAME_TIME_LIMIT - elapsed else 0.0;
      var s1 := s.(remaining := remaining);
      if remaining <= 0.0 then
        var s2 := s1.(timerOn := false);
        if s2.score < MAX_SCORE then GameOver(s2) else s2
      else s1
  }

  /** The indicator handed to the tracker this pose, and the cache afterwards. */
  datatype LipRead = LipRead(indicator: Option<real>, cache: LipCache)

  /**
   The lip-row cache of detect(): the estimator is consulted only when at
   least 4 frames have passed since the last sample; that frame uses its
   result even when null, and the cache is overwritten only by a non-null
   result. Between samples the cached value is used.
   */
  function RefreshLip(cache: LipCache, frameCount: int, sampled: Option<real>): (r: LipRead)
    ensures frameCount - cache.frame >= LOWER_LIP_INTERVAL ==> r.indicator == sampled && r.cache.frame == frameCount
    ensures frameCount - cache.frame < LOWER_LIP_INTERVAL ==> r.indicator == cache.y && r.cache == cache
    ensures frameCount - cache.frame >= LOWER_LIP_INTERVAL && sampled.Some? ==> r.cache.y == sampled
    ensures frameCount - cache.frame >= LOWER_LIP_INTERVAL && sampled.None? ==> r.cache.y == cache.y
    ensures r.cache.y != cache.y ==> sampled.Some? && r.cache.y == sampled
    ensures cache.y.Some? ==> r.cache.y.Some?
  {
    if frameCount - cache.frame >= LOWER_LIP_INTERVAL then
      LipRead(sampled, LipCache(if sampled.Some? then sampled else cache.y, frameCount))
    else LipRead(cache.y, cache)
  }

  /**
   A scoring hit: the score goes up by one; the tenth hit ends the round,
   any other respawns the target.
   */
  function RegisterHit(s: Session, d: Draw): (r: Session)
    ensures r.score == s.score + 1
    ensures r.score >= MAX_SCORE ==> !r.detectRunning && !r.timerOn && !r.target.visible
    ensures r.score < MAX_SCORE ==>
      r.detectRunning == s.detectRunning && r.timerOn == s.timerOn && r.target.visible
      && r.target.radius == RadiusFor(s.head.scale)
      && (ValidDraw(d) ==> InsideCanvas(r.target))
      && r.target == UpdateTargetPosition(s.target, r.score, s.head.scale, CANVAS_W as real, CANVAS_H as real, d)
    ensures r.cameraActive == s.cameraActive && r.remaining == s.remaining
    ensures r.head == s.head && r.face == s.face && r.lip == s.lip && r.frameCount == s.frameCount
  {
    var scored := s.(score := s.score + 1);
    if scored.score >= MAX_SCORE then GameOver(scored)
    else scored.(target := UpdateTargetPosition(scored.target, scored.score, s.head.scale,
                                                CANVAS_W as real, CANVAS_H as real, d))
  }

  /** The scoring guard of detect(). */
  predicate Scores(s: Session, kps: Keypoints)
  {
    s.detectRunning && s.target.visible && CheckCollision(kps, s.target)
  }

  /** One pose of a detection result: lip cache, head tracking, then collision and scoring. */
  function ProcessPose(s: Session, p: PoseInput, videoW: int, videoH: int, sqrt: Sqrt): (r: Session)
    ensures r.cameraActive == s.cameraActive && r.frameCount == s.frameCount && r.remaining == s.remaining
    // the lip cache is refreshed with this pose's estimate, and the tracker gets the indicator it yields
    ensures r.lip == RefreshLip(s.lip, s.frameCount, LowerLipY(p.keypoints, videoW, videoH, p.raster, sqrt)).cache
    ensures Tracked(r.head, r.face) == TrackHead(p.keypoints, s.head, s.face,
      RefreshLip(s.lip, s.frameCount, LowerLipY(p.keypoints, videoW, videoH, p.raster, sqrt)).indicator,
      CANVAS_W, CANVAS_H, sqrt)
    ensures p.keypoints[NOSE].score < NOSE_CONFIDENCE ==> r.head == s.head && r.face == s.face
    // scoring: one point exactly on a collision in a running round
    ensures r.score == s.score + (if Scores(s, p.keypoints) then 1 else 0)
    ensures !Scores(s, p.keypoints) ==>
      r.target == s.target && r.detectRunning == s.detectRunning && r.timerOn == s.timerOn
    ensures Scores(s, p.keypoints) && s.cameraActive && s.score + 1 >= MAX_SCORE ==>
      PhaseOf(r) == Won && !r.target.visible && !r.timerOn
    ensures Scores(s, p.keypoints) && s.score + 1 < MAX_SCORE ==>
      r.detectRunning && r.target.visible && (ValidDraw(p.draw) ==> InsideCanvas(r.target))
    // a scoring pose registers its hit, with this pose's draw, on the tracked state
    ensures Scores(s, p.keypoints) ==> r == RegisterHit(s.(head := r.head, face := r.face, lip := r.lip), p.draw)
  {
    var read := RefreshLip(s.lip, s.frameCount, LowerLipY(p.keypoints, videoW, videoH, p.raster, sqrt));
    var tracked := TrackHead(p.keypoints, s.head, s.face, read.indicator, CANVAS_W, CANVAS_H, sqrt);
    var s1 := s.(head := tracked.head, face := tracked.face, lip := read.cache);
    if Scores(s1, p.keypoints) then RegisterHit(s1, p.draw) else s1
  }

  /**
   poses.forEach: every pose is processed in order, also after a winning
   hit; with SessionProperties.ProcessPosesSplit this pins the result down
   as one ProcessPose per pose.
   */
  function ProcessPoses(s: Session, ps: seq<PoseInput>, videoW: int, videoH: int, sqrt: Sqrt): (r: Session)
    ensures r.cameraActive == s.cameraActive && r.frameCount == s.frameCount && r.remaining == s.remaining
    ensures s.score <= r.score <= s.score + |ps|
    ensures |ps| == 0 ==> r == s
    ensures |ps| == 1 ==> r == ProcessPose(s, ps[0], videoW, videoH, sqrt)
    decreases |ps|
  {
    if |ps| == 0 then s else ProcessPoses(ProcessPose(s, ps[0], videoW, videoH, sqrt), ps[1..], videoW, videoH, sqrt)
  }

  /**
   One animation frame of detect(): nothing while the camera is off;
   inference runs on even frames only; a detector failure stops the camera
   (and skips the frame counter); otherwise every pose is processed and the
   frame counter advances.
   */
  function DetectFrame(s: Session, videoW: int, videoH: int, inf: Inference, sqrt: Sqrt): (r: Session)
    ensures !s.cameraActive ==> r == s
    ensures s.cameraActive && s.frameCount % 2 == 1 ==> r == s.(frameCount := s.frameCount + 1)
    ensures s.cameraActive && s.frameCount % 2 == 0 && inf.DetectorFailed? ==> r == StopCamera(s)
    ensures s.cameraActive && s.frameCount % 2 == 0 && inf.Poses? ==>
      && r.frameCount == s.frameCount + 1 && r.cameraActive && r.remaining == s.remaining
      && s.score <= r.score <= s.score + |inf.poses|
      && r.(frameCount := s.frameCount) == ProcessPoses(s, inf.poses, videoW, videoH, sqrt)
  {
    if !s.cameraActive then s
    else if s.frameCount % 2 == 0 then
      match inf
      case DetectorFailed => StopCamera(s)
      case Poses(ps) =>
        var s1 := ProcessPoses(s, ps, videoW, videoH, sqrt);
        s1.(frameCount := s1.frameCount + 1)
    else s.(frameCount := s.frameCount + 1)
  }

  /**
   One event. A successful camera start switches the camera on and starts
   a round; a stop returns to Idle; a restart starts a round exactly when
   the camera is on; a timer tick never changes the score.
   */
  function Step(s: Session, e: Event, sqrt: Sqrt): (r: Session)
    // each event is the handler the program runs for it
    ensures e.CameraStarted? ==> r == RestartGame(s.(cameraActive := true), e.draw)
    ensures e.Restart? ==> r == RestartGame(s, e.draw)
    ensures e.Stop? ==> r == StopCamera(s)
    ensures e.TimerTick? ==> r == TickTimer(s, e.elapsed)
    ensures e.DetectTick? ==> r == DetectFrame(s, e.videoW, e.videoH, e.inference, sqrt)
    ensures e.CameraStarted? ==>
      PhaseOf(r) == Running && r.score == 0 && r.target.visible && r.remaining == GAME_TIME_LIMIT
      && (ValidDraw(e.draw) ==> InsideCanvas(r.target))
    ensures e.Stop? ==> PhaseOf(r) == Idle && !r.target.visible && !r.timerOn && r.score == s.score
    ensures e.Restart? ==> (PhaseOf(r) == Running <==> s.cameraActive)
    ensures e.Restart? && !s.cameraActive ==> r == s
    ensures e.TimerTick? ==> r.score == s.score && r.cameraActive == s.cameraActive
    ensures e.DetectTick? && s.cameraActive && s.frameCount % 2 == 0 && e.inference.DetectorFailed? ==>
      PhaseOf(r) == Idle && r.score == s.score
  {
    match e
    case CameraStarted(d) => RestartGame(s.(cameraActive := true), d)
    case Restart(d) => RestartGame(s, d)
    case Stop => StopCamera(s)
    case TimerTick(elapsed) => TickTimer(s, elapsed)
    case DetectTick(w, h, inf) => DetectFrame(s, w, h, inf, sqrt)
  }

  /** The session after a sequence of events, oldest first. */
  function RunEvents(s: Session, es: seq<Event>, sqrt: Sqrt): Session
    decreases |es|
  {
    if |es| == 0 then s else Step(RunEvents(s, es[..|es| - 1], sqrt), es[|es| - 1], sqrt)
  }
}
