/**
 The target circle: updateTargetPosition (script.js:142-155) places it
 with a radius tied to the head size, and checkCollision
 (script.js:267-282) tests the wrists and ankles against it.
 */
module Targets {
  import opened Basics
  import opened Pose

  datatype Target = Target(x: real, y: real, radius: real, visible: bool)

  const MAX_SCORE: nat := 10
  const MIN_RADIUS := 25.0
  const MAX_RADIUS := 50.0
  const RADIUS_SHARE := 0.15
  const HIT_CONFIDENCE := 0.5
  /** Left/right wrist and left/right ankle. */
  const COLLISION_KEYPOINTS: seq<int> := [LEFT_WRIST, RIGHT_WRIST, LEFT_ANKLE, RIGHT_ANKLE]

  /** Math.random() results for the x and y placement. */
  datatype Draw = Draw(ux: real, uy: real)

  predicate ValidDraw(d: Draw)
  {
    0.0 <= d.ux < 1.0 && 0.0 <= d.uy < 1.0
  }

  /** 15% of the head scale, clamped to [25, 50]. */
  function RadiusFor(scale: real): (r: real)
    ensures MIN_RADIUS <= r <= MAX_RADIUS
    ensures MIN_RADIUS <= scale * RADIUS_SHARE <= MAX_RADIUS ==> r == scale * RADIUS_SHARE
    ensures scale * RADIUS_SHARE < MIN_RADIUS ==> r == MIN_RADIUS
    ensures scale * RADIUS_SHARE > MAX_RADIUS ==> r == MAX_RADIUS
  {
    Clamp(MIN_RADIUS, MAX_RADIUS, scale * RADIUS_SHARE)
  }

  /**
   Math.floor(u * (extent - 2r)) + r: the offset from r is the whole part
   of u times the free room. For u in [0,1) on an extent of at least 2r
   the whole circle lies inside [0, extent]; when the extent is strictly
   larger the centre stays strictly below extent - r.
   */
  function PlaceCoord(u: real, extent: real, radius: real): (c: real)
    ensures c - radius <= u * (extent - 2.0 * radius) < c - radius + 1.0
    ensures (c - radius).Floor as real == c - radius
    ensures 0.0 <= u < 1.0 && extent >= 2.0 * radius ==> radius <= c <= extent - radius
    ensures 0.0 <= u < 1.0 && extent > 2.0 * radius ==> c < extent - radius
  {
    var room := extent - 2.0 * radius;
    var p := u * room;
    assert 0.0 <= u < 1.0 && room >= 0.0 ==> 0.0 <= p <= room && (room > 0.0 ==> p < room) by {
      if 0.0 <= u < 1.0 && room >= 0.0 {
        ShareOfRoom(u, room);
      }
    }
    Floor(p) as real + radius
  }

  /** A share u in [0, 1) of a room of at least 0 is at most the room, and below a positive one. */
  lemma ShareOfRoom(u: real, room: real)
    requires 0.0 <= u < 1.0 && room >= 0.0
    ensures 0.0 <= u * room <= room
    ensures room > 0.0 ==> u * room < room
  {
    assert room - u * room == (1.0 - u) * room;
    assert (1.0 - u) * room >= 0.0;
    if room > 0.0 {
      assert (1.0 - u) * room > 0.0;
    }
  }

  /**
   updateTargetPosition: nothing happens once score >= MAX_SCORE; otherwise
   the target gets its radius from the head scale, a random position and
   becomes visible.
   */
  function UpdateTargetPosition(t: Target, score: nat, scale: real, canvasW: real, canvasH: real, d: Draw): (r: Target)
    ensures score >= MAX_SCORE ==> r == t
    ensures score < MAX_SCORE ==>
      && r.visible
      && r.radius == RadiusFor(scale)
      && r.x == PlaceCoord(d.ux, canvasW, r.radius) && r.y == PlaceCoord(d.uy, canvasH, r.radius)
      && (ValidDraw(d) && canvasW >= 2.0 * r.radius ==> r.radius <= r.x <= canvasW - r.radius)
      && (ValidDraw(d) && canvasH >= 2.0 * r.radius ==> r.radius <= r.y <= canvasH - r.radius)
  {
    if score >= MAX_SCORE then t
    else
      var radius := RadiusFor(scale);
      Target(PlaceCoord(d.ux, canvasW, radius), PlaceCoord(d.uy, canvasH, radius), radius, true)
  }

  /** The keypoint is confident and strictly inside the circle. */
  predicate HitBy(kp: Keypoint, t: Target)
  {
    kp.score > HIT_CONFIDENCE && SqDist(kp.x, kp.y, t.x, t.y) < t.radius * t.radius
  }

  /** The loop over the given indices, stopping at the first hit. */
  function AnyHit(kps: Keypoints, t: Target, idx: seq<int>): (r: bool)
    requires forall i :: 0 <= i < |idx| ==> 0 <= idx[i] < |kps|
    ensures r <==> exists i :: 0 <= i < |idx| && HitBy(kps[idx[i]], t)
    decreases |idx|
  {
    if |idx| == 0 then false
    else if HitBy(kps[idx[0]], t) then true
    else
      var rest := AnyHit(kps, t, idx[1..]);
      assert forall i :: 1 <= i < |idx| ==> idx[i] == idx[1..][i - 1];
      rest
  }

  /**
   checkCollision: false for a hidden target; otherwise true exactly when
   a wrist or ankle with confidence above 0.5 lies strictly inside the
   circle.
   */
  function CheckCollision(kps: Keypoints, t: Target): (r: bool)
    ensures r <==> t.visible && exists i :: 0 <= i < |COLLISION_KEYPOINTS| && HitBy(kps[COLLISION_KEYPOINTS[i]], t)
  {
    t.visible && AnyHit(kps, t, COLLISION_KEYPOINTS)
  }

  /**
   A keypoint exactly on the circle is a miss, even when it is the only
   confident one.
   */
  lemma BoundaryIsMiss(kps: Keypoints, t: Target)
    requires forall i :: 0 <= i < |COLLISION_KEYPOINTS| ==>
      var kp := kps[COLLISION_KEYPOINTS[i]];
      kp.score <= HIT_CONFIDENCE || SqDist(kp.x, kp.y, t.x, t.y) == t.radius * t.radius
    ensures !CheckCollision(kps, t)
  {
  }
}
