/**
 The landmark provider's output: 17 keypoints per detected subject in the
 MoveNet order (nose; left/right eye; left/right ear; left/right shoulder;
 left/right elbow; left/right wrist; left/right hip; left/right knee;
 left/right ankle), plus the distance helper and the
 shoulder -> eyes -> ears -> constant size chain that both the head tracker
 and the lip-row estimator use with their own coefficients.
 */
module Pose {

  datatype Keypoint = Keypoint(x: real, y: real, score: real)

  /** One subject's keypoints; the provider always yields all 17. */
  type Keypoints = s: seq<Keypoint> | |s| == 17
    witness seq(17, _ => Keypoint(0.0, 0.0, 0.0))

  const NOSE := 0
  const LEFT_EYE := 1
  const RIGHT_EYE := 2
  const LEFT_EAR := 3
  const RIGHT_EAR := 4
  const LEFT_SHOULDER := 5
  const RIGHT_SHOULDER := 6
  const LEFT_WRIST := 9
  const RIGHT_WRIST := 10
  const LEFT_ANKLE := 15
  const RIGHT_ANKLE := 16

  /** Minimum confidence for a keypoint pair to be used for sizing. */
  const PAIR_CONFIDENCE := 0.3

  /** Minimum nose confidence for head tracking and the lip-row crop. */
  const NOSE_CONFIDENCE := 0.3

  /** The host's square root (Math.sqrt); the model is parametric in it. */
  type Sqrt = real -> real

  function SqDist(x0: real, y0: real, x1: real, y1: real): (r: real)
    ensures r >= 0.0
  {
    (x0 - x1) * (x0 - x1) + (y0 - y1) * (y0 - y1)
  }

  /** dist(a, b): the host square root of the squared distance. */
  function Dist(a: Keypoint, b: Keypoint, sqrt: Sqrt): real
  {
    sqrt(SqDist(a.x, a.y, b.x, b.y))
  }

  /**
   For a genuine square root d of the squared distance q and a positive
   radius, `d < radius` and `q < radius * radius` agree; this is why the
   model may compare squared distances where the program compares
   Math.sqrt results.
   */
  lemma DistBelowIff(d: real, q: real, radius: real)
    requires d >= 0.0 && d * d == q && radius > 0.0
    ensures d < radius <==> q < radius * radius
  {
    if d < radius {
      calc {
        q;
        == d * d;
        <= { assert d * (radius - d) >= 0.0; } d * radius;
        < { assert (radius - d) * radius > 0.0; } radius * radius;
      }
    } else {
      assert radius * radius <= d * radius by { assert (d - radius) * radius >= 0.0; }
      assert d * radius <= d * d by { assert d * (d - radius) >= 0.0; }
    }
  }

  predicate PairVisible(a: Keypoint, b: Keypoint)
  {
    a.score > PAIR_CONFIDENCE && b.score > PAIR_CONFIDENCE
  }

  /** Which keypoint pair the size chain measures. */
  datatype SizePair = Shoulders | Eyes | Ears | NoPair

  function ChosenPair(kps: Keypoints): (p: SizePair)
    ensures p == Shoulders <==> PairVisible(kps[LEFT_SHOULDER], kps[RIGHT_SHOULDER])
    ensures p == Eyes <==>
      !PairVisible(kps[LEFT_SHOULDER], kps[RIGHT_SHOULDER]) && PairVisible(kps[LEFT_EYE], kps[RIGHT_EYE])
    ensures p == Ears <==>
      !PairVisible(kps[LEFT_SHOULDER], kps[RIGHT_SHOULDER]) && !PairVisible(kps[LEFT_EYE], kps[RIGHT_EYE])
      && PairVisible(kps[LEFT_EAR], kps[RIGHT_EAR])
  {
    if PairVisible(kps[LEFT_SHOULDER], kps[RIGHT_SHOULDER]) then Shoulders
    else if PairVisible(kps[LEFT_EYE], kps[RIGHT_EYE]) then Eyes
    else if PairVisible(kps[LEFT_EAR], kps[RIGHT_EAR]) then Ears
    else NoPair
  }

  /** Multipliers applied to the chosen pair's distance, and the constant used without a pair. */
  datatype SizeWeights = SizeWeights(shoulder: real, eye: real, ear: real, fallback: real)

  /** The size proxy: the chosen pair's distance times its weight, or the fallback. */
  function SizeFromPose(kps: Keypoints, w: SizeWeights, sqrt: Sqrt): real
  {
    match ChosenPair(kps)
    case Shoulders => Dist(kps[LEFT_SHOULDER], kps[RIGHT_SHOULDER], sqrt) * w.shoulder
    case Eyes => Dist(kps[LEFT_EYE], kps[RIGHT_EYE], sqrt) * w.eye
    case Ears => Dist(kps[LEFT_EAR], kps[RIGHT_EAR], sqrt) * w.ear
    case NoPair => w.fallback
  }
}
