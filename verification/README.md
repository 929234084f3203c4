# Head-tracking target minigame: the per-frame logic, modelled in Dafny

`script.js` runs a browser minigame. A pose detector (MoveNet, 17
keypoints) watches the player. A cartoon head follows the player's nose and
shows whether their eyes and mouth are open. The player must touch a circle
on the canvas with a wrist or an ankle, ten times within 15 seconds.

This project models the deterministic core of that file:

- **Head tracker and eye classifier** (`HeadTracker`, `Pose`). This is
  `calculateHeadState`. It smooths the head position toward the nose and
  the head size toward a clamped size estimate, taken from the shoulders,
  then the eyes, then the ears, then a default.
- **Mouth classifier** (`MouthClassifier`). It calibrates a baseline over
  30 samples, then lets it drift. It low-pass filters each sample and
  flips open/closed only after 3 consecutive frames past a threshold, with
  a dead-band between the two thresholds.
- **Lower-lip row estimator** (`LipRow`, `LipScan`). This is
  `estimateLowerLipYFromFrame`. It builds a face crop around the nose and
  masks reddish pixels of moderate brightness. Then it counts masked
  pixels per row, smooths the counts with a ±3-row moving average and
  takes the first maximal row in a band below the nose. `LipRow` defines
  this as functions. `LipScan` gives the program's loops as methods, each
  proved equal to its function.
- **Target and collision** (`Targets`). This covers `updateTargetPosition`
  and `checkCollision`.
- **Session lifecycle** (`Session`, `SessionProperties`). This covers
  restart, the round timer, game over, stop, and the per-pose block of
  `detect()` that refreshes the lip-row cache, tracks the head and scores
  a hit. Each asynchronous source (button, 100 ms interval, animation
  frame with its detection result) is an `Event` applied to one immutable
  `Session` value.

The model is exact in these respects:

- Coordinates, scales and times are exact `real`s.
- `Math.round`, `Math.floor` and `Math.ceil` are written out in `Basics`.
  `Round` rounds halves up, as JavaScript does.
- `Math.random()` results are `Draw` parameters in [0, 1).
- `Math.sqrt` is a host-supplied function parameter (`Pose.Sqrt`). The
  collision test compares squared distances, and `Pose.DistBelowIff` shows
  that this equals comparing a genuine root with the radius.
- The pixel tests are scaled integer tests. The luma test is
  `18000 <= 299R + 587G + 114B <= 245000` and the redness test is
  `2R - G - B > 36`. `LipRow.LipPixelMatchesRealTests` proves these equal
  the program's real-valued tests.

Where the code behaves differently from what its names and comments suggest,
the model follows the code:

- **Null lip estimate.** When the lip row is re-sampled and the estimator
  returns null, that frame uses null (it falls back to keypoints 9/10). It
  does not use the cached value. The cache itself keeps the last non-null
  estimate (`Session.RefreshLip`).
- **Late detection results.** A result that arrives after the round ended
  is processed, not discarded. Scoring is gated on `_isDetectRunning`, so
  score, target and timer stay untouched (`SessionProperties.LateResultHarmless`).
- **Stop.** Stopping the camera shows a score of 0 but keeps the `score`
  variable.
- **Head-size clamp.** The clamp `max(140, min(MAX_HEAD, v))` gives at
  least 140 even on a canvas small enough that `MAX_HEAD < 140`.
- **Spawn bound.** A spawned coordinate satisfies `r <= x <= W - r`. It is
  strictly below `W - r` only when `W > 2r`. At `W == 2r` it equals
  `W - r`.
- **Mouth "corners".** The program's mouth-corner keypoints 9 and 10 are
  the wrists in the 17-point layout. The model names them as wrists.
- **Padded raster rows.** The raster height is padded up to 10 rows, but rows are mapped back with the width's scale (script.js:693-695, 751). On a short crop the last raster rows map below the crop's bottom edge (`LipRow.PaddedRowsOvershoot`).
- **Smoothed-value initialisation.** The guard at script.js:616 can never
  fire, because the field is set to 0 first. So the smoothed value starts
  at 0.

## Model

| member | source | states |
|---|---|---|
| Basics.Round | script.js:680-683 | Math.round: the result is within half a unit of x, rounding halves up (x - 0.5 < r <= x + 0.5) |
| Basics.Clamp | script.js:585-587 | Math.max(lo, Math.min(hi, v)) is at least lo, and at most hi unless hi < lo; it equals v inside [lo, hi], lo below it and hi above it |
| Basics.Approach | script.js:568-588 | a smoothing step a + (b - a)·k with k in [0, 1] lands between a and b and leaves exactly (1 - k) of the gap |
| Pose.DistBelowIff | script.js:133-137 | for a genuine square root d of q and a positive radius, d < radius exactly when q < radius², so the squared-distance test is faithful |
| Pose.ChosenPair | script.js:575-584 | the size pair is the shoulders when both are above 0.3, else the eyes, else the ears, else none, each choice exactly when the earlier pairs are not visible |
| HeadTracker.HeadSizeTarget | script.js:585-587 | the clamped head-size target is never below 140, and at most 1.1·min(W, H) unless that is below 140; a size inside [140, 1.1·min(W, H)] passes unchanged, one below 140 becomes 140, one above the (non-empty) band becomes 1.1·min(W, H) |
| HeadTracker.HeadSizePriority | script.js:574-584 | the unclamped size is 2.0·d(shoulders) when both shoulders are confident, else 6.5·d(eyes), else 2.2·d(ears), else 220 |
| HeadTracker.MouthIndicator | script.js:599-604 | the lip-row estimate when present; otherwise the exact midpoint of keypoints 9 and 10 exactly when both scores exceed 0.3; otherwise none |
| HeadTracker.TrackHead | script.js:555-607 | a nose below 0.3 changes nothing; otherwise x and y move between old value and nose, keeping 80% of the gap, the scale moves between old value and target keeping exactly 85% of its gap to the target, and stays positive, eyesOpen holds iff both eyes exceed 0.5, and the mouth takes one frame with sample (indicator - nose.y)/new scale, or is untouched without an indicator |
| HeadTracker.ScaleStaysInBand | script.js:585-588 | a scale inside [140, 1.1·min(W, H)] stays inside after any update |
| MouthClassifier.MouthFrame | script.js:606-643 | one sample: the baseline count saturates at 30 and the sum collects exactly the first 30 samples; while calibrating the baseline is their mean; from the 30th on it moves 0.2% toward the sample; smoothing keeps 88% of the gap; above the open threshold the open run grows and the close run resets, below the close threshold the reverse, in the dead-band both reset and the decision is kept; the decision flips only at a run of 3 |
| MouthClassifier.FrameFlip | script.js:627-639 | a single frame turns the mouth open only from the Above zone with an open run of at least 3, and closed only from Below with a close run of at least 3 |
| MouthClassifier.BaselineIsMean | script.js:609-614 | from the initial state, after up to 30 samples the count equals the number of samples, the sum is their sum, and below 30 the baseline is their arithmetic mean |
| MouthClassifier.BaselineFramesSaturate | script.js:610-612 | the baseline count after any samples is min(start + samples, 30): it never exceeds 30 |
| MouthClassifier.OpenCountIsAboveRun | script.js:627-636 | after any samples, the open counter is the length of a suffix of frames all judged Above |
| MouthClassifier.CloseCountIsBelowRun | script.js:627-636 | after any samples, the close counter is the length of a suffix of frames all judged Below |
| MouthClassifier.OpeningNeedsThreeAbove | script.js:624-630 | the mouth becomes open only after at least 3 consecutive frames above baseline + 0.06 |
| MouthClassifier.ClosingNeedsThreeBelow | script.js:625-634 | the mouth becomes closed only after at least 3 consecutive frames below baseline + 0.04 |
| MouthClassifier.DeadBandFreezes | script.js:635-639 | any run of dead-band frames keeps the decision and leaves both counters at zero |
| LipRow.LipPixelMatchesRealTests | script.js:718-722 | the scaled integer luma and redness tests accept exactly the pixels the real-valued tests (luma in [18, 245], R - (G+B)/2 > 18) accept |
| LipRow.ClipSpan | script.js:687-690 | clipping a span to [0, limit) starts it at max(start, 0) and ends it at min(start + len, limit) |
| LipRow.FaceWidthPriority | script.js:667-676 | the face width is 1.6·d(shoulders) when both shoulders are confident, else 6.0·d(eyes), else 1.2·d(ears), else 220 |
| LipRow.CropOf | script.js:693-695 | a crop of two spans longer than 8 is valid, keeps the spans, its scale maps the crop width onto a 140-pixel-wide raster, and its raster height is max(10, round(sh·scale)) |
| LipRow.CropFor | script.js:659-695 | no crop for a nose below 0.3; otherwise the crop is the box of width round(w) with left edge round(nose.x - w/2) and height round(1.15w) with top edge round(nose.y - 0.35·1.15w), intersected with the video frame, and it exists exactly when both clipped sides exceed 8; a returned crop is valid, inside the frame, and maps onto a 140-pixel-wide raster whose height is max(10, round(sh·scale)) |
| LipRow.CropContainsNose | script.js:679-690 | for a face at least 2 pixels wide and a nose inside the frame, a crop contains the nose |
| LipRow.RowCountCounts | script.js:714-722 | a row's mask count is positive exactly when one of its pixels passes both tests, and equals the row width exactly when all do |
| LipRow.WindowSumPositive | script.js:735 | a window sum of row counts is positive exactly when some row in the window is |
| LipRow.SmoothAtSign | script.js:729-737 | the moving average at row y is never negative, and positive exactly when some row in [max(0, y-3), min(dh-1, y+3)] has a masked pixel |
| LipRow.FirstMax | script.js:744-748 | the scan result lies in the band, is at least every band value, and is strictly above every earlier band value (the first maximum) |
| LipRow.SearchBand | script.js:739-741 | the band lies within the raster rows; minRow is the floor of noseRow + 8% of dh (or 0) and maxRow the ceiling of noseRow + 65% of dh (or dh - 1) |
| LipRow.FromRaster | script.js:727-752 | null exactly when fewer than 20 pixels are masked, the band is empty, or the first band maximum is not positive; otherwise sy + bestRow/scale, which lies between sy and the frame row of the last raster line, FrameY(c, dh - 1) |
| LipRow.RowsMapInsideCrop | script.js:751 | every raster row maps back to a frame row between the crop's top and the row of its last raster line |
| LipRow.PaddedRowsOvershoot | script.js:693-695 | for a 200 x 9 crop the raster is padded to 10 rows and its last row maps back below the crop's bottom edge |
| LipRow.LowerLipY | script.js:650-753 | null for a nose below 0.3 and when the frame could not be sampled; a value only from a crop and a raster; whenever there are a crop and a raster, exactly FromRaster's answer |
| LipScan.CountRow | script.js:714-722 | the inner loop over one row computes exactly the row's mask count |
| LipScan.CountMask | script.js:711-726 | the nested loops compute exactly the per-row mask counts and their total |
| LipScan.SmoothProfile | script.js:729-737 | the smoothing loop computes exactly the ±3-row moving-average profile |
| LipScan.BestRow | script.js:744-748 | the argmax loop returns exactly the first maximal row of the band and its value |
| LipScan.ScanRaster | script.js:711-752 | the loops on a sampled raster return exactly FromRaster's answer |
| LipScan.EstimateLowerLipY | script.js:650-753 | the imperative estimator returns exactly LowerLipY |
| Targets.RadiusFor | script.js:145-148 | the radius is 15% of the head scale clamped to [25, 50]: equal to that share inside the range, 25 below it and 50 above it |
| Targets.PlaceCoord | script.js:151-152 | the offset from r is the whole part of u·(extent - 2r), an integer within 1 below that product; for u in [0, 1) and an extent of at least 2r the coordinate lies in [r, extent - r], strictly below extent - r when the extent exceeds 2r |
| Targets.UpdateTargetPosition | script.js:142-155 | nothing changes once the score is 10 or more; otherwise the target is visible, its radius is the clamped share, its position is PlaceCoord of the two draws with that radius, and it lies inside the canvas |
| Targets.AnyHit | script.js:270-280 | the loop over keypoint indices reports a hit exactly when some listed keypoint is confident above 0.5 and strictly inside the circle |
| Targets.CheckCollision | script.js:267-282 | false for a hidden target; otherwise true exactly when a wrist or ankle with confidence above 0.5 lies strictly inside the circle |
| Targets.BoundaryIsMiss | script.js:276-279 | a keypoint exactly on the circle, or at confidence 0.5 or less, never hits |
| Session.GameOver | script.js:160-165 | the timer is cleared, scoring stops and the target is hidden; score, camera, radius and tracking state are unchanged |
| Session.StopCamera | script.js:102-127 | as game over, and the camera goes off and the remaining time resets to 15; the score variable is kept |
| Session.RestartGame | script.js:194-216 | a no-op unless the camera is active; otherwise score 0, scoring and timer on, 15 s left, a visible target inside the canvas whose radius uses the head scale or 220 when it is 0, tracking state carried over; the target is the one the draw places with that radius |
| Session.TickTimer | script.js:217-230 | no effect without a live timer; before 15 s only the remaining time 15 - elapsed changes; at 15 s the timer stops at 0 and the round is lost only if the score is below 10; head tracking, mouth calibration, the lip cache, the frame counter and the target's position and radius are always kept |
| Session.RefreshLip | script.js:394-404 | after 4 frames the estimate is sampled and used for this frame, even when null; a non-null sample replaces the cache and a null one leaves it; between samples the cached value is used and the cache is unchanged |
| Session.RegisterHit | script.js:415-425 | a hit raises the score by one; the tenth ends the round with the target hidden, any other respawns the target inside the canvas, at the position the draw places for the head's radius |
| Session.ProcessPose | script.js:391-426 | one pose refreshes the lip cache, and hands its indicator to the head tracker, whose head and face become the session's (unchanged for a nose below 0.3); it raises the score by one exactly when scoring is on, the target is visible and it collides, otherwise leaving target and flags alone; the tenth point wins with the target hidden and the timer off, an earlier one keeps scoring on with a visible target inside the canvas; a scoring pose is RegisterHit with its own draw on the tracked state |
| Session.ProcessPoses | script.js:391-426 | no poses leave the state as is and one pose is one ProcessPose; camera flag, frame counter and remaining time are kept and the score rises by at most one per pose |
| SessionProperties.ProcessPosesSplit | script.js:391-426 | processing a + b is processing a and then b from the state a left, so each pose is processed once, in order, also after a winning hit |
| Session.DetectFrame | script.js:364-431 | nothing while the camera is off; odd frames only advance the counter; a detector failure stops the camera; an even frame with poses processes all of them, raises the score by at most their number and advances the counter |
| Session.Step | script.js:64-127 | each event is its handler: a camera start is RestartGame with the camera on, a restart RestartGame, a stop StopCamera, a timer tick TickTimer and an animation frame DetectFrame; so a successful camera start begins a running round at score 0 with a visible target inside the canvas; a stop returns to Idle with the score kept; a restart gives a running round exactly when the camera is on and is a no-op otherwise; a timer tick never changes the score; a detector failure on an inference frame returns to Idle |
| SessionProperties.InitialInv | script.js:12-27 | the initial state satisfies the session invariant and is idle |
| SessionProperties.ProcessPosesInv | script.js:391-426 | processing a detection result keeps the invariant |
| SessionProperties.StepInv | script.js:102-234 | every event keeps the invariant: score at most 10, a visible target exactly while scoring is on, then with score below 10 inside the canvas, radius in [25, 50], timer live exactly while scoring, remaining time in [0, 15] |
| SessionProperties.ReachableInv | script.js:102-234 | every session reachable by any event sequence satisfies the invariant; in particular score <= 10 and a visible target implies score < 10 |
| SessionProperties.LateResultHarmless | script.js:415-416 | a detection result processed while scoring is off changes neither score, target, timer nor scoring flag |
| SessionProperties.TerminalAbsorbs | script.js:160-230 | from Won or Lost, no timer tick or detection result changes the phase, the score or the hidden target |
| SessionProperties.ScoreRisesOnlyWhileRunning | script.js:415-417 | a detection result raises the score only while scoring is on |
| SessionProperties.CacheHoldsSampledEstimate | script.js:394-404 | over any run of poses the cached lip row is the initial one or some pose's non-null estimate; it never changes while every estimate is null, and once non-null stays non-null |
| SessionProperties.StepScoreRise | script.js:415-417 | only a detection frame of a running round raises the score |
| SessionProperties.HitsScore | script.js:415-425 | n hits from a running round with k + n <= 10 raise the score by exactly n; the round stays running with a visible target until the tenth, which wins it with the target hidden |
| SessionProperties.TenHitsWin | script.js:415-425 | ten hits after a restart win the round and hide the target |
| SessionProperties.TimeoutLoses | script.js:217-230 | a running round is lost, score kept and target hidden, on the first tick at or past 15 s; an earlier tick only updates the remaining time |
| SessionProperties.ZeroHitTimeout | script.js:194-230 | a restarted round with no hits that reaches 15 s is lost with score 0 |

## Left out

- Drawing and DOM: `drawTarget`, `drawHeadImage`, `drawSegment`, `drawBodyParts`, `drawSkeleton`, `getBodyPart`, `showMessageBox`, `displayScore`, `updateTimerDisplay` and the message HTML are presentation only. The displayed score (0 after a stop) is therefore not modelled.
- Camera and detector setup: `setupCamera`, `toggleCamera`, `startDetectionAndCamera` and detector creation in `runPoseDetection` are foreign asynchronous I/O. A successful start is the `CameraStarted` event. A failed start is `Stop`. The detector's answer is `Inference` data, and its failure is `DetectorFailed`.
- Scheduling and concurrency: `requestAnimationFrame`, `setInterval`, `setTimeout` and the `await` on pose estimation become explicit events applied in sequence. Interleavings inside one callback are not modelled.
- Restart's `if (window._detectionLoop)` guard (script.js:213) is modelled as always true. `runPoseDetection` assigns the loop function in the same synchronous continuation that assigns `detector` (script.js:341-433), and the camera only starts once `detector` is set (script.js:74-80), so every restart of an active camera finds the guard true.
- Restart also calls `window._detectionLoop()` once more, which starts an extra animation-frame chain. Its frames are just more `DetectTick` events, so it is not modelled separately.
- A second detection loop is not modelled. `runPoseDetection` runs at load (script.js:755-756), and `startDetectionAndCamera` runs it again while the detector is still loading (script.js:74-76). A camera start during loading therefore creates a second detector and a second `detect()` loop with its own frame counter, racing the first. The model has one loop and one counter, starting at 0.
- Raster acquisition: `drawImage`/`getImageData` are replaced by an optional RGB pixel sequence supplied with each pose. None means `drawImage` threw. Alpha is ignored. An index beyond the supplied pixels counts as unmasked.
- Floating point: every number is an exact real, so IEEE rounding and the exact boundary of the luma and redness tests near their thresholds may differ. `Float32Array` narrowing of the smoothed profile is not modelled. The `Uint16Array` row counts cannot wrap, because a row holds at most 140 pixels.
- `Math.sqrt` and `Math.random` are parameters (`Pose.Sqrt`, `Targets.Draw`). Properties that need a genuine square root take that as a premise (`Pose.DistBelowIff`).
- The `opts` argument of the estimator is fixed to the values `detect()` passes (140, 18, 20) and the defaults for the rest. The video size is an integer parameter standing for `videoWidth || width`.
- Output precision: the `toFixed` elapsed-time text and the win and loss messages are not modelled.
- Targets.UpdateTargetPosition: the fallback `headState.scale || stableHead.scale` is not modelled, because both arguments the program passes already make `headState.scale` the scale used (`Session.RestartGame` applies the 220 fallback).
