/**
 calculateHeadState (script.js:555-648): the per-pose update of the
 smoothed head (position and size), the eye classifier, the choice of the
 mouth indicator and the hand-off of its normalised value to the mouth
 classifier.
 */
module HeadTracker {
  import opened Basics
  import opened Pose
  import opened MouthClassifier

  /** The head size never goes negative: it starts at 220 and only moves towards targets of at least 140. */
  type HeadScale = r: real | r >= 0.0

  datatype Head = Head(x: real, y: real, scale: HeadScale)

  /** Frame-level face state kept on `prevState`. */
  datatype Face = Face(eyesOpen: bool, mouth: MouthState)

  datatype Tracked = Tracked(head: Head, face: Face)

  const EYE_OPEN_CONFIDENCE := 0.5
  const MOUTH_CORNER_CONFIDENCE := 0.3
  const POSITION_GAIN := 0.2
  const SCALE_GAIN := 0.15
  const MIN_HEAD := 140.0
  const HEAD_WEIGHTS := SizeWeights(2.0, 6.5, 2.2, 220.0)

  /** 1.1 times the smaller canvas side. */
  function MaxHead(canvasW: int, canvasH: int): real
  {
    MinInt(canvasW, canvasH) as real * 1.1
  }

  /**
   The head size the scale moves towards: the size chain with the tracker's
   weights, clamped to [140, MaxHead]. It is never below 140, even on a
   canvas so small that MaxHead is.
   */
  function HeadSizeTarget(kps: Keypoints, canvasW: int, canvasH: int, sqrt: Sqrt): (r: real)
    ensures MIN_HEAD <= r
    ensures r <= MaxHead(canvasW, canvasH) || r == MIN_HEAD
    // an in-band size passes unchanged; one outside is cut to the nearer bound
    ensures MIN_HEAD <= SizeFromPose(kps, HEAD_WEIGHTS, sqrt) <= MaxHead(canvasW, canvasH) ==>
      r == SizeFromPose(kps, HEAD_WEIGHTS, sqrt)
    ensures SizeFromPose(kps, HEAD_WEIGHTS, sqrt) < MIN_HEAD ==> r == MIN_HEAD
    ensures MIN_HEAD <= MaxHead(canvasW, canvasH) < SizeFromPose(kps, HEAD_WEIGHTS, sqrt) ==>
      r == MaxHead(canvasW, canvasH)
  {
    Clamp(MIN_HEAD, MaxHead(canvasW, canvasH), SizeFromPose(kps, HEAD_WEIGHTS, sqrt))
  }

  /**
   The unclamped size picks, in priority order, 2.0 x the shoulder
   distance, 6.5 x the eye distance, 2.2 x the ear distance, else 220.
   */
  lemma HeadSizePriority(kps: Keypoints, sqrt: Sqrt)
    ensures PairVisible(kps[LEFT_SHOULDER], kps[RIGHT_SHOULDER]) ==>
      SizeFromPose(kps, HEAD_WEIGHTS, sqrt) == Dist(kps[LEFT_SHOULDER], kps[RIGHT_SHOULDER], sqrt) * 2.0
    ensures ChosenPair(kps) == Eyes ==>
      SizeFromPose(kps, HEAD_WEIGHTS, sqrt) == Dist(kps[LEFT_EYE], kps[RIGHT_EYE], sqrt) * 6.5
    ensures ChosenPair(kps) == Ears ==>
      SizeFromPose(kps, HEAD_WEIGHTS, sqrt) == Dist(kps[LEFT_EAR], kps[RIGHT_EAR], sqrt) * 2.2
    ensures ChosenPair(kps) == NoPair ==> SizeFromPose(kps, HEAD_WEIGHTS, sqrt) == 220.0
  {
  }

  /** Eyes are open exactly when both eye keypoints are confident; no memory. */
  predicate EyesOpen(kps: Keypoints)
  {
    kps[LEFT_EYE].score > EYE_OPEN_CONFIDENCE && kps[RIGHT_EYE].score > EYE_OPEN_CONFIDENCE
  }

  /**
   The mouth indicator row: the lip-row estimate when there is one,
   otherwise the midpoint of keypoints 9 and 10 when both are confident
   (the program calls them the mouth corners; in this keypoint layout they
   are the wrists), otherwise none.
   */
  function MouthIndicator(lipY: Option<real>, kps: Keypoints): (r: Option<real>)
    ensures lipY.Some? ==> r == lipY
    ensures lipY.None? ==>
      (r.Some? <==> kps[LEFT_WRIST].score > MOUTH_CORNER_CONFIDENCE && kps[RIGHT_WRIST].score > MOUTH_CORNER_CONFIDENCE)
    ensures lipY.None? && r.Some? ==>
      Between(kps[LEFT_WRIST].y, r.value, kps[RIGHT_WRIST].y)
      && r.value - kps[LEFT_WRIST].y == kps[RIGHT_WRIST].y - r.value
  {
    if lipY.Some? then lipY
    else if kps[LEFT_WRIST].score > MOUTH_CORNER_CONFIDENCE && kps[RIGHT_WRIST].score > MOUTH_CORNER_CONFIDENCE then
      Some((kps[LEFT_WRIST].y + kps[RIGHT_WRIST].y) / 2.0)
    else None
  }

  /**
   One call of calculateHeadState. A nose below 0.3 confidence freezes
   everything. Otherwise the head position closes 20% of its gap to the
   nose, the scale closes 15% of its gap to the clamped size target, the
   eye state is recomputed, and the mouth classifier takes one frame when
   there is an indicator (normalised by the updated scale) and is left
   untouched when there is none.
   */
  function TrackHead(kps: Keypoints, head: Head, face: Face, lipY: Option<real>,
                     canvasW: int, canvasH: int, sqrt: Sqrt): (r: Tracked)
    ensures kps[NOSE].score < NOSE_CONFIDENCE ==> r == Tracked(head, face)
    ensures kps[NOSE].score >= NOSE_CONFIDENCE ==>
      && Between(head.x, r.head.x, kps[NOSE].x)
      && kps[NOSE].x - r.head.x == 0.8 * (kps[NOSE].x - head.x)
      && Between(head.y, r.head.y, kps[NOSE].y)
      && kps[NOSE].y - r.head.y == 0.8 * (kps[NOSE].y - head.y)
      && Between(head.scale, r.head.scale, HeadSizeTarget(kps, canvasW, canvasH, sqrt))
      && HeadSizeTarget(kps, canvasW, canvasH, sqrt) - r.head.scale
         == 0.85 * (HeadSizeTarget(kps, canvasW, canvasH, sqrt) - head.scale)
      && r.head.scale > 0.0
      && (r.face.eyesOpen <==> EyesOpen(kps))
    ensures kps[NOSE].score >= NOSE_CONFIDENCE && MouthIndicator(lipY, kps).None? ==>
      r.face.mouth == face.mouth
    ensures kps[NOSE].score >= NOSE_CONFIDENCE && MouthIndicator(lipY, kps).Some? ==>
      r.face.mouth == MouthFrame(face.mouth, (MouthIndicator(lipY, kps).value - kps[NOSE].y) / r.head.scale)
  {
    var nose := kps[NOSE];
    if nose.score < NOSE_CONFIDENCE then Tracked(head, face)
    else
      var target := HeadSizeTarget(kps, canvasW, canvasH, sqrt);
      var scale := Approach(head.scale, target, SCALE_GAIN);
      assert scale >= 0.85 * head.scale + 0.15 * MIN_HEAD;
      var head' := Head(Approach(head.x, nose.x, POSITION_GAIN), Approach(head.y, nose.y, POSITION_GAIN), scale);
      var mouth :=
        match MouthIndicator(lipY, kps)
        case None => face.mouth
        case Some(indicatorY) => MouthFrame(face.mouth, (indicatorY - nose.y) / scale);
      Tracked(head', Face(EyesOpen(kps), mouth))
  }

  /**
   If the scale starts inside [140, MaxHead] (a non-empty band) it stays
   there after any update, whatever the keypoints.
   */
  lemma ScaleStaysInBand(kps: Keypoints, head: Head, face: Face, lipY: Option<real>,
                         canvasW: int, canvasH: int, sqrt: Sqrt)
    requires MIN_HEAD <= head.scale <= MaxHead(canvasW, canvasH)
    ensures MIN_HEAD <= TrackHead(kps, head, face, lipY, canvasW, canvasH, sqrt).head.scale <= MaxHead(canvasW, canvasH)
  {
  }
}
