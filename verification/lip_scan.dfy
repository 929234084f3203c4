/**
 The row-by-row loops of estimateLowerLipYFromFrame (script.js:711-752),
 each proved to compute the functional definition in module LipRow.
 */
module LipScan {
  import opened Basics
  import opened Pose
  import opened LipRow

  lemma TotalAppend(s: seq<nat>, v: nat)
    ensures Total(s + [v]) == Total(s) + v
  {
    assert (s + [v])[..|s|] == s;
  }

  /** The masked pixels of row y, counted left to right (script.js:714-722). */
  method CountRow(px: seq<Pixel>, dw: int, y: int) returns (count: nat)
    ensures count == RowCount(px, dw, y, dw)
  {
    count := 0;
    var x := 0;
    while x < dw
      invariant 0 <= x <= MaxInt(dw, 0)
      invariant count == RowCount(px, dw, y, x)
    {
      if MaskedAt(px, y * dw + x) {
        count := count + 1;
      }
      x := x + 1;
    }
  }

  /** The per-row mask counts and their total (script.js:711-726). */
  method CountMask(px: seq<Pixel>, dw: int, dh: nat) returns (rows: seq<nat>, total: nat)
    ensures rows == RowSums(px, dw, dh)
    ensures total == Total(rows)
  {
    rows := [];
    total := 0;
    var y := 0;
    while y < dh
      invariant 0 <= y <= dh
      invariant |rows| == y
      invariant forall j :: 0 <= j < y ==> rows[j] == RowCount(px, dw, j, dw)
      invariant total == Total(rows)
    {
      var count := CountRow(px, dw, y);
      TotalAppend(rows, count);
      rows := rows + [count];
      total := total + count;
      y := y + 1;
    }
  }

  /** The +-3 row moving average (script.js:729-737). */
  method SmoothProfile(rows: seq<nat>) returns (sm: seq<real>)
    ensures sm == Profile(rows)
  {
    sm := [];
    var y := 0;
    while y < |rows|
      invariant 0 <= y <= |rows|
      invariant |sm| == y
      invariant forall j :: 0 <= j < y ==> sm[j] == SmoothAt(rows, j)
    {
      var lo := MaxInt(0, y - SMOOTH_RADIUS);
      var hi := MinInt(|rows| - 1, y + SMOOTH_RADIUS);
      var s := 0;
      var c := 0;
      var yy := lo;
      while yy <= hi
        invariant lo <= yy <= hi + 1
        invariant s == WindowSum(rows, lo, yy)
        invariant c == yy - lo
      {
        s := s + rows[yy];
        c := c + 1;
        yy := yy + 1;
      }
      sm := sm + [s as real / c as real];
      y := y + 1;
    }
  }

  /** The scan for the first maximal row in [lo, hi] (script.js:744-748). */
  method BestRow(sm: seq<real>, lo: int, hi: int) returns (best: int, bestVal: real)
    requires 0 <= lo <= hi < |sm|
    requires forall j :: 0 <= j < |sm| ==> sm[j] >= 0.0
    ensures best == FirstMax(sm, lo, hi)
    ensures IsFirstMax(sm, lo, hi, best) && bestVal == sm[best]
  {
    best := -1;
    bestVal := -1.0;
    var y := lo;
    while y <= hi
      invariant lo <= y <= hi + 1
      invariant y == lo ==> best == -1 && bestVal == -1.0
      invariant y > lo ==> best == FirstMax(sm, lo, y - 1) && bestVal == sm[best]
    {
      if sm[y] > bestVal {
        best := y;
        bestVal := sm[y];
      }
      y := y + 1;
    }
  }

  /** The row counts, smoothing, search band and argmax on a sampled raster, as the program runs them. */
  method ScanRaster(px: seq<Pixel>, c: Crop, noseY: real) returns (r: Option<real>)
    requires ValidCrop(c)
    ensures r == FromRaster(px, c, noseY)
  {
    var rows, total := CountMask(px, c.dw, c.dh);
    var band := SearchBand(c, noseY);
    if total < MIN_MASK_PIXELS || band.minRow > band.maxRow {
      r := None;
    } else {
      var sm := SmoothProfile(rows);
      var best, bestVal := BestRow(sm, band.minRow, band.maxRow);
      if best < 0 || bestVal <= 0.0 {
        r := None;
      } else {
        r := Some(FrameY(c, best));
      }
    }
  }

  /** The whole estimator: crop, sample, scan. */
  method EstimateLowerLipY(kps: Keypoints, videoW: int, videoH: int, raster: Option<seq<Pixel>>, sqrt: Sqrt)
    returns (r: Option<real>)
    ensures r == LowerLipY(kps, videoW, videoH, raster, sqrt)
  {
    var crop := CropFor(kps, videoW, videoH, sqrt);
    if crop.None? || raster.None? {
      return None;
    }
    r := ScanRaster(raster.value, crop.value, kps[NOSE].y);
  }
}
