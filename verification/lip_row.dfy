/**
 estimateLowerLipYFromFrame (script.js:650-753) as a functional
 specification: the crop around the mouth, the per-row count of lip-like
 pixels in the downscaled crop, the +-3 row moving average, the search band
 below the nose and the first maximal row in it, mapped back to frame Y.
 Every degenerate path yields None. The loops that compute the same thing
 row by row are in module LipScan.
 */
module LipRow {
  import opened Basics
  import opened Pose

  const TARGET_WIDTH := 140
  const RED_THRESHOLD := 18
  const MIN_MASK_PIXELS := 20
  const BELOW_NOSE_MIN := 0.08
  const BELOW_NOSE_MAX := 0.65
  const SMOOTH_RADIUS := 3
  const MIN_CROP_SIDE := 8
  const MIN_RASTER_SIDE := 10
  const FACE_WEIGHTS := SizeWeights(1.6, 6.0, 1.2, 220.0)
  const FACE_ASPECT := 1.15
  const ABOVE_NOSE_SHARE := 0.35

  type Byte = x: int | 0 <= x < 256

  /** One RGBA pixel of the sampled raster; the alpha byte is never read. */
  datatype Pixel = Pixel(r: Byte, g: Byte, b: Byte)

  /**
   The luminance gate 18 <= 0.299R + 0.587G + 0.114B <= 245, scaled by
   1000 so that it is a test on integers.
   */
  predicate LumaInRange(p: Pixel)
  {
    18000 <= 299 * p.r + 587 * p.g + 114 * p.b <= 245000
  }

  /** The redness test R - (G + B) / 2 > 18, doubled. */
  predicate Reddish(p: Pixel)
  {
    2 * p.r - p.g - p.b > 2 * RED_THRESHOLD
  }

  predicate LipPixel(p: Pixel)
  {
    LumaInRange(p) && Reddish(p)
  }

  /** The integer tests agree exactly with the program's tests evaluated on exact reals. */
  lemma LipPixelMatchesRealTests(p: Pixel)
    ensures LipPixel(p) <==>
      var lum := 0.299 * p.r as real + 0.587 * p.g as real + 0.114 * p.b as real;
      18.0 <= lum <= 245.0 && p.r as real - (p.g as real + p.b as real) / 2.0 > RED_THRESHOLD as real
  {
  }

  /**
   Pixel i of the raster passes both tests. An index past the end of the
   raster never passes (reading past the image data yields no number).
   */
  predicate MaskedAt(px: seq<Pixel>, i: int)
  {
    0 <= i < |px| && LipPixel(px[i])
  }

  /** A closed-open interval on one axis. */
  datatype Span = Span(start: int, len: int)

  /**
   The clipping of script.js:687-690 on one axis: the result is exactly the
   intersection of [start, start + len) with [0, limit).
   */
  function ClipSpan(start: int, len: int, limit: int): (r: Span)
    ensures r.start == MaxInt(start, 0)
    ensures r.start + r.len == MinInt(start + len, limit)
  {
    var s1 := if start < 0 then 0 else start;
    var l1 := if start < 0 then len + start else len;
    var l2 := if s1 + l1 > limit then limit - s1 else l1;
    Span(s1, l2)
  }

  /**
   The sampled region in frame coordinates (sx, sy, sw, sh), the
   downscale factor and the raster size (dw, dh).
   */
  datatype Crop = Crop(sx: int, sy: int, sw: int, sh: int, scale: real, dw: int, dh: int)

  predicate ValidCrop(c: Crop)
  {
    c.sw > MIN_CROP_SIDE && c.sh > MIN_CROP_SIDE && c.scale > 0.0
    && c.dw >= MIN_RASTER_SIDE && c.dh >= MIN_RASTER_SIDE
  }

  /** The face-width proxy: the size chain with weights 1.6 / 6.0 / 1.2 / 220. */
  function FaceWidth(kps: Keypoints, sqrt: Sqrt): real
  {
    SizeFromPose(kps, FACE_WEIGHTS, sqrt)
  }

  /**
   The face width is 1.6 x the shoulder distance when both shoulders are
   confident, else 6.0 x the eye distance, else 1.2 x the ear distance,
   else 220: the same priority as the head size, with other weights.
   */
  lemma FaceWidthPriority(kps: Keypoints, sqrt: Sqrt)
    ensures PairVisible(kps[LEFT_SHOULDER], kps[RIGHT_SHOULDER]) ==>
      FaceWidth(kps, sqrt) == Dist(kps[LEFT_SHOULDER], kps[RIGHT_SHOULDER], sqrt) * 1.6
    ensures ChosenPair(kps) == Eyes ==>
      FaceWidth(kps, sqrt) == Dist(kps[LEFT_EYE], kps[RIGHT_EYE], sqrt) * 6.0
    ensures ChosenPair(kps) == Ears ==>
      FaceWidth(kps, sqrt) == Dist(kps[LEFT_EAR], kps[RIGHT_EAR], sqrt) * 1.2
    ensures ChosenPair(kps) == NoPair ==> FaceWidth(kps, sqrt) == 220.0
  {
  }

  /** A quotient of a non-negative by a positive number is non-negative, and positive exactly when the dividend is. */
  lemma QuotientSign(x: real, d: real)
    requires x >= 0.0 && d > 0.0
    ensures x / d >= 0.0 && (x / d > 0.0 <==> x > 0.0)
  {
    assert d * (x / d) == x;
  }

  /** x / d is positive for positive x and d, and multiplying it back by d gives x. */
  lemma QuotientFacts(x: real, d: real)
    requires x > 0.0 && d > 0.0
    ensures x / d > 0.0 && d * (x / d) == x
  {
  }

  /**
   The raster height is sh * scale rounded to the nearest integer, or 10
   when that rounds to less.
   */
  predicate RasterHeightFits(c: Crop)
  {
    || (c.sh as real * c.scale - 0.5 < c.dh as real <= c.sh as real * c.scale + 0.5 && c.dh >= MIN_RASTER_SIDE)
    || (c.dh == MIN_RASTER_SIDE && c.sh as real * c.scale < MIN_RASTER_SIDE as real - 0.5)
  }

  /**
   The crop of two clipped spans whose sides both exceed 8: the raster is
   140 pixels wide, and its height follows the same downscale.
   */
  function CropOf(xs: Span, ys: Span): (c: Crop)
    requires xs.len > MIN_CROP_SIDE && ys.len > MIN_CROP_SIDE
    ensures ValidCrop(c)
    ensures c.sx == xs.start && c.sw == xs.len && c.sy == ys.start && c.sh == ys.len
    ensures c.scale * c.sw as real == TARGET_WIDTH as real
    ensures c.dw == TARGET_WIDTH
    // the height keeps the aspect ratio: dh = max(10, round(sh * scale))
    ensures RasterHeightFits(c)
  {
    var scale := TARGET_WIDTH as real / xs.len as real;
    QuotientFacts(TARGET_WIDTH as real, xs.len as real);
    var dw := MaxInt(MIN_RASTER_SIDE, Round(xs.len as real * scale));
    var dh := MaxInt(MIN_RASTER_SIDE, Round(ys.len as real * scale));
    Crop(xs.start, ys.start, xs.len, ys.len, scale, dw, dh)
  }

  /**
   The unclipped face box: width round(w) from a left edge at
   round(nose.x - w/2), height round(1.15 w) from a top edge at
   round(nose.y - 0.35 x 1.15 w), for the face width w.
   */
  function BoxLeft(kps: Keypoints, sqrt: Sqrt): int
  {
    Round(kps[NOSE].x - FaceWidth(kps, sqrt) * 0.5)
  }

  function BoxWidth(kps: Keypoints, sqrt: Sqrt): int
  {
    Round(FaceWidth(kps, sqrt))
  }

  function BoxTop(kps: Keypoints, sqrt: Sqrt): int
  {
    Round(kps[NOSE].y - FaceWidth(kps, sqrt) * FACE_ASPECT * ABOVE_NOSE_SHARE)
  }

  function BoxHeight(kps: Keypoints, sqrt: Sqrt): int
  {
    Round(FaceWidth(kps, sqrt) * FACE_ASPECT)
  }

  /**
   The crop: the face box intersected with the video frame. None when the
   nose is not confident or a clipped side is 8 pixels or less. The raster
   is always 140 pixels wide.
   */
  function CropFor(kps: Keypoints, videoW: int, videoH: int, sqrt: Sqrt): (r: Option<Crop>)
    ensures kps[NOSE].score < NOSE_CONFIDENCE ==> r.None?
    // with a confident nose: a crop exactly when both clipped sides exceed 8
    ensures kps[NOSE].score >= NOSE_CONFIDENCE ==>
      (r.Some? <==>
        ClipSpan(BoxLeft(kps, sqrt), BoxWidth(kps, sqrt), videoW).len > MIN_CROP_SIDE
        && ClipSpan(BoxTop(kps, sqrt), BoxHeight(kps, sqrt), videoH).len > MIN_CROP_SIDE)
    // and the crop is the face box clipped to the frame
    ensures r.Some? ==>
      && r.value.sx == ClipSpan(BoxLeft(kps, sqrt), BoxWidth(kps, sqrt), videoW).start
      && r.value.sw == ClipSpan(BoxLeft(kps, sqrt), BoxWidth(kps, sqrt), videoW).len
      && r.value.sy == ClipSpan(BoxTop(kps, sqrt), BoxHeight(kps, sqrt), videoH).start
      && r.value.sh == ClipSpan(BoxTop(kps, sqrt), BoxHeight(kps, sqrt), videoH).len
    ensures r.Some? ==>
      && ValidCrop(r.value)
      && 0 <= r.value.sx && r.value.sx + r.value.sw <= videoW
      && 0 <= r.value.sy && r.value.sy + r.value.sh <= videoH
      && r.value.scale * r.value.sw as real == TARGET_WIDTH as real
      && r.value.dw == TARGET_WIDTH
      && RasterHeightFits(r.value)
  {
    if kps[NOSE].score < NOSE_CONFIDENCE then None
    else CropOfSpans(ClipSpan(BoxLeft(kps, sqrt), BoxWidth(kps, sqrt), videoW),
                     ClipSpan(BoxTop(kps, sqrt), BoxHeight(kps, sqrt), videoH))
  }

  /** The crop of two clipped spans, when both are longer than 8 pixels. */
  function CropOfSpans(xs: Span, ys: Span): (r: Option<Crop>)
    ensures r.Some? <==> xs.len > MIN_CROP_SIDE && ys.len > MIN_CROP_SIDE
    ensures r.Some? ==> r.value == CropOf(xs, ys)
  {
    if xs.len <= MIN_CROP_SIDE || ys.len <= MIN_CROP_SIDE then None
    else Some(CropOf(xs, ys))
  }

  /**
   For a face at least 2 pixels wide whose nose lies inside the frame, the
   crop, when there is one, contains the nose.
   */
  lemma CropContainsNose(kps: Keypoints, videoW: int, videoH: int, sqrt: Sqrt)
    requires CropFor(kps, videoW, videoH, sqrt).Some?
    requires 0.0 <= kps[NOSE].x <= videoW as real && 0.0 <= kps[NOSE].y <= videoH as real
    requires FaceWidth(kps, sqrt) >= 2.0
    ensures var c := CropFor(kps, videoW, videoH, sqrt).value;
      && c.sx as real <= kps[NOSE].x <= (c.sx + c.sw) as real
      && c.sy as real <= kps[NOSE].y <= (c.sy + c.sh) as real
  {
    assert BoxLeft(kps, sqrt) as real <= kps[NOSE].x;
    assert (BoxLeft(kps, sqrt) + BoxWidth(kps, sqrt)) as real >= kps[NOSE].x;
    assert BoxTop(kps, sqrt) as real <= kps[NOSE].y;
    assert (BoxTop(kps, sqrt) + BoxHeight(kps, sqrt)) as real >= kps[NOSE].y;
  }

  /** Pixel x of row y of a raster dw pixels wide passes both tests. */
  predicate RowMasked(px: seq<Pixel>, dw: int, y: int, x: int)
  {
    MaskedAt(px, y * dw + x)
  }

  /** The number of masked pixels among the first n of row y; RowCountCounts says what it counts. */
  function RowCount(px: seq<Pixel>, dw: int, y: int, n: int): (r: nat)
    ensures r <= MaxInt(n, 0)
    decreases n
  {
    if n <= 0 then 0
    else RowCount(px, dw, y, n - 1) + (if RowMasked(px, dw, y, n - 1) then 1 else 0)
  }

  /**
   A row count is positive exactly when one of the counted pixels is
   masked, and reaches n exactly when all of them are.
   */
  lemma {:induction false} RowCountCounts(px: seq<Pixel>, dw: int, y: int, n: int)
    ensures RowCount(px, dw, y, n) > 0 <==> exists x :: 0 <= x < n && RowMasked(px, dw, y, x)
    ensures n >= 0 ==> (RowCount(px, dw, y, n) == n <==> forall x :: 0 <= x < n ==> RowMasked(px, dw, y, x))
    decreases n
  {
    if n > 0 {
      RowCountCounts(px, dw, y, n - 1);
      if RowCount(px, dw, y, n) == n {
        assert RowCount(px, dw, y, n - 1) == n - 1 && RowMasked(px, dw, y, n - 1);
      }
    }
  }

  /** The row-count profile of a dw x dh raster. */
  function RowSums(px: seq<Pixel>, dw: int, dh: nat): (rows: seq<nat>)
    ensures |rows| == dh
  {
    seq(dh, y requires 0 <= y < dh => RowCount(px, dw, y, dw))
  }

  function Total(s: seq<nat>): nat
    decreases |s|
  {
    if |s| == 0 then 0 else Total(s[..|s| - 1]) + s[|s| - 1]
  }

  /** Sum of rows[lo..hi). */
  function WindowSum(rows: seq<nat>, lo: int, hi: int): nat
    requires 0 <= lo <= hi <= |rows|
    decreases hi - lo
  {
    if lo == hi then 0 else WindowSum(rows, lo, hi - 1) + rows[hi - 1]
  }

  /** A window sum is positive exactly when some row in the window is. */
  lemma {:induction false} WindowSumPositive(rows: seq<nat>, lo: int, hi: int)
    requires 0 <= lo <= hi <= |rows|
    ensures WindowSum(rows, lo, hi) > 0 <==> exists j :: lo <= j < hi && rows[j] > 0
    decreases hi - lo
  {
    if lo < hi {
      WindowSumPositive(rows, lo, hi - 1);
    }
  }

  function WindowLo(y: int): int { MaxInt(0, y - SMOOTH_RADIUS) }

  function WindowHi(rows: seq<nat>, y: int): int { MinInt(|rows| - 1, y + SMOOTH_RADIUS) }

  /** The moving average at row y: the mean of rows max(0, y-3) .. min(dh-1, y+3). */
  function SmoothAt(rows: seq<nat>, y: int): real
    requires 0 <= y < |rows|
  {
    WindowSum(rows, WindowLo(y), WindowHi(rows, y) + 1) as real / (WindowHi(rows, y) - WindowLo(y) + 1) as real
  }

  /**
   A smoothed value is never negative, and it is positive exactly when some
   row within 3 of y holds a masked pixel.
   */
  lemma SmoothAtSign(rows: seq<nat>, y: int)
    requires 0 <= y < |rows|
    ensures SmoothAt(rows, y) >= 0.0
    ensures SmoothAt(rows, y) > 0.0 <==> exists j :: WindowLo(y) <= j <= WindowHi(rows, y) && rows[j] > 0
  {
    WindowSumPositive(rows, WindowLo(y), WindowHi(rows, y) + 1);
    QuotientSign(WindowSum(rows, WindowLo(y), WindowHi(rows, y) + 1) as real,
                 (WindowHi(rows, y) - WindowLo(y) + 1) as real);
  }

  function Profile(rows: seq<nat>): (sm: seq<real>)
    ensures |sm| == |rows|
    ensures forall y :: 0 <= y < |sm| ==> sm[y] >= 0.0
  {
    var sm := seq(|rows|, y requires 0 <= y < |rows| => SmoothAt(rows, y));
    assert forall y :: 0 <= y < |sm| ==> sm[y] >= 0.0 by {
      forall y | 0 <= y < |sm| ensures sm[y] >= 0.0 {
        SmoothAtSign(rows, y);
      }
    }
    sm
  }

  /** b is the first index of a maximal value of sm within [lo, hi]. */
  predicate IsFirstMax(sm: seq<real>, lo: int, hi: int, b: int)
    requires 0 <= lo <= hi < |sm|
  {
    && lo <= b <= hi
    && (forall j :: lo <= j <= hi ==> sm[j] <= sm[b])
    && (forall j :: lo <= j < b ==> sm[j] < sm[b])
  }

  /** The argmax scan of script.js:744-748: a later row wins only if strictly larger. */
  function FirstMax(sm: seq<real>, lo: int, hi: int): (b: int)
    requires 0 <= lo <= hi < |sm|
    ensures IsFirstMax(sm, lo, hi, b)
    decreases hi - lo
  {
    if hi == lo then lo
    else
      var b := FirstMax(sm, lo, hi - 1);
      if sm[hi] > sm[b] then hi else b
  }

  /** The candidate rows [minRow, maxRow]: 8% to 65% of the raster height below the nose's row. */
  datatype Band = Band(minRow: int, maxRow: int)

  function NoseRow(c: Crop, noseY: real): int
  {
    Round((noseY - c.sy as real) * c.scale)
  }

  function SearchBand(c: Crop, noseY: real): (b: Band)
    ensures 0 <= b.minRow && b.maxRow <= c.dh - 1
    ensures b.minRow as real <= NoseRow(c, noseY) as real + c.dh as real * BELOW_NOSE_MIN || b.minRow == 0
    ensures NoseRow(c, noseY) as real + c.dh as real * BELOW_NOSE_MIN < b.minRow as real + 1.0
    ensures NoseRow(c, noseY) as real + c.dh as real * BELOW_NOSE_MAX <= b.maxRow as real || b.maxRow == c.dh - 1
    ensures b.maxRow as real < NoseRow(c, noseY) as real + c.dh as real * BELOW_NOSE_MAX + 1.0
  {
    var noseRow := NoseRow(c, noseY);
    Band(MaxInt(0, Floor(noseRow as real + c.dh as real * BELOW_NOSE_MIN)),
         MinInt(c.dh - 1, Ceil(noseRow as real + c.dh as real * BELOW_NOSE_MAX)))
  }

  /** Frame Y of raster row `row`. */
  function FrameY(c: Crop, row: int): real
    requires c.scale > 0.0
  {
    c.sy as real + row as real / c.scale
  }

  /**
   The row counts, smoothing, search band and argmax on a sampled raster: None when fewer than 20 pixels are
   masked, when the band is empty, or when the best smoothed value is not
   positive; otherwise the frame Y of the first maximal band row.
   */
  function FromRaster(px: seq<Pixel>, c: Crop, noseY: real): (r: Option<real>)
    requires ValidCrop(c)
    ensures r.None? <==>
      || Total(RowSums(px, c.dw, c.dh)) < MIN_MASK_PIXELS
      || SearchBand(c, noseY).minRow > SearchBand(c, noseY).maxRow
      || Profile(RowSums(px, c.dw, c.dh))[FirstMax(Profile(RowSums(px, c.dw, c.dh)), SearchBand(c, noseY).minRow, SearchBand(c, noseY).maxRow)] <= 0.0
    ensures r.Some? ==>
      r.value == FrameY(c, FirstMax(Profile(RowSums(px, c.dw, c.dh)), SearchBand(c, noseY).minRow, SearchBand(c, noseY).maxRow))
      && c.sy as real <= r.value <= FrameY(c, c.dh - 1)
  {
    var rows := RowSums(px, c.dw, c.dh);
    var band := SearchBand(c, noseY);
    if Total(rows) < MIN_MASK_PIXELS || band.minRow > band.maxRow then None
    else
      var sm := Profile(rows);
      var best := FirstMax(sm, band.minRow, band.maxRow);
      if sm[best] <= 0.0 then None
      else
        RowsMapInsideCrop(c, best);
        Some(FrameY(c, best))
  }

  /**
   The raster height is padded to at least 10 rows, but rows are mapped
   back with the width's scale: for a 200 x 9 crop the raster has 10 rows
   and its last row maps to frame Y sy + 12.86, below the crop's bottom
   edge sy + 9.
   */
  lemma PaddedRowsOvershoot()
    ensures var c := CropOf(Span(0, 200), Span(0, 9));
      c.dh == 10 && FrameY(c, c.dh - 1) > (c.sy + c.sh) as real
  {
    var c := CropOf(Span(0, 200), Span(0, 9));
    assert c.scale == 0.7;
    assert Round(9.0 * 0.7) == 6;
  }

  /**
   Raster rows map back between the crop's top and the frame row of its
   last raster line, in order (which lies below the crop's bottom edge when
   the raster height was padded, see PaddedRowsOvershoot).
   */
  lemma RowsMapInsideCrop(c: Crop, row: int)
    requires ValidCrop(c) && 0 <= row <= c.dh - 1
    ensures c.sy as real <= FrameY(c, row) <= FrameY(c, c.dh - 1)
  {
    assert row as real / c.scale <= (c.dh - 1) as real / c.scale by {
      assert (c.dh - 1 - row) as real / c.scale >= 0.0;
    }
  }

  /**
   The whole estimator. None when the crop is degenerate, when sampling the
   frame failed (raster None), or when FromRaster finds nothing.
   */
  function LowerLipY(kps: Keypoints, videoW: int, videoH: int, raster: Option<seq<Pixel>>, sqrt: Sqrt): (r: Option<real>)
    ensures kps[NOSE].score < NOSE_CONFIDENCE ==> r.None?
    ensures raster.None? ==> r.None?
    ensures r.Some? ==> CropFor(kps, videoW, videoH, sqrt).Some? && raster.Some?
    ensures CropFor(kps, videoW, videoH, sqrt).Some? && raster.Some? ==>
      r == FromRaster(raster.value, CropFor(kps, videoW, videoH, sqrt).value, kps[NOSE].y)
  {
    match CropFor(kps, videoW, videoH, sqrt)
    case None => None
    case Some(c) =>
      match raster
      case None => None
      case Some(px) => FromRaster(px, c, kps[NOSE].y)
  }
}
