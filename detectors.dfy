/**
 * The object detectors of the tracking scripts, applied to what OpenCV hands them.
 *
 * A contour arrives as a summary: its `contourArea`, its zeroth moment `m00`, its moment
 * centroid `(int(m10/m00), int(m01/m00))` (meaningful only when `m00 != 0`) and its
 * `boundingRect`. Detectors that take the moments of a whole mask receive that mask's
 * centroid, or `None` when `m00 == 0`; the maximum-contrast detector receives the
 * location `minMaxLoc` reports.
 */
module Detectors {
  import opened Wrappers
  import opened Geometry

  datatype Contour = Contour(area: real, m00: real, cx: int, cy: int, rect: Box)

  /** What a KCF or MOSSE tracker's `update(frame)` returns: a success flag and a box. */
  datatype Reply = Reply(ok: bool, box: Box)

  // ---------------------------------------------------------------------------------
  // Python's max(..., key=cv2.contourArea), optionally over a filtered list

  /** Kept by the filter `contourArea(c) > floor` (no filter when `floor` is None). */
  predicate Kept(c: Contour, floor: Option<real>) {
    floor.None? || c.area > floor.value
  }

  /**
   * `cs[i]` is what `max` returns over the kept contours: no kept contour is larger, and
   * every earlier kept one is strictly smaller (`max` keeps the first of equal maxima).
   */
  predicate IsFirstLargest(cs: seq<Contour>, i: int, floor: Option<real>) {
    0 <= i < |cs| && Kept(cs[i], floor)
    && (forall j :: 0 <= j < |cs| && Kept(cs[j], floor) ==> cs[j].area <= cs[i].area)
    && (forall j :: 0 <= j < i && Kept(cs[j], floor) ==> cs[j].area < cs[i].area)
  }

  /** Index of the contour `max` picks, or None when nothing is kept. */
  function FirstLargest(cs: seq<Contour>, floor: Option<real>): (r: Option<nat>)
    ensures r.None? <==> forall j :: 0 <= j < |cs| ==> !Kept(cs[j], floor)
    ensures r.Some? ==> IsFirstLargest(cs, r.value, floor)
  {
    if |cs| == 0 then None
    else
      var prefix := FirstLargest(cs[..|cs| - 1], floor);
      var last := |cs| - 1;
      if !Kept(cs[last], floor) then prefix
      else if prefix.None? || cs[last].area > cs[prefix.value].area then Some(last)
      else prefix
  }

  /** At most one index is the first largest, so `FirstLargest` is fully determined. */
  lemma FirstLargestUnique(cs: seq<Contour>, i: int, k: int, floor: Option<real>)
    requires IsFirstLargest(cs, i, floor) && IsFirstLargest(cs, k, floor)
    ensures i == k
  {
  }

  // ---------------------------------------------------------------------------------
  // Frame-difference detectors: largest moving contour, then its moments

  /** What the detector asks of the largest moving contour before accepting it. */
  predicate AcceptMoving(c: Contour, margin: Option<int>) {
    c.m00 != 0.0 && (margin.None? || !InNoTrackZone(c.cx, margin.value, WIDTH))
  }

  /**
   * `find_moving_object_bbox`: keep contours with area above `minArea`, take the largest,
   * refuse it when its zeroth moment is 0 or (with a margin) when its centroid lies in an
   * edge band, else return its bounding rectangle. Retrack15 and Retrack12 use
   * `minArea` 500 and margin 80; Retrack2 and tacker10h use 500 and Tacker10i 2000,
   * without a margin.
   */
  function FindMovingObjectBbox(cs: seq<Contour>, minArea: real, margin: Option<int>): Option<Box> {
    match FirstLargest(cs, Some(minArea))
    case None => None
    case Some(i) => if AcceptMoving(cs[i], margin) then Some(cs[i].rect) else None
  }

  /**
   * The detector judges the largest moving contour alone: when it is refused, no smaller
   * contour is tried, and when nothing is large enough the result is None.
   */
  lemma MovingBboxJudgesLargestOnly(cs: seq<Contour>, minArea: real, margin: Option<int>)
    ensures (forall j :: 0 <= j < |cs| ==> cs[j].area <= minArea) ==> FindMovingObjectBbox(cs, minArea, margin).None?
    ensures forall i :: IsFirstLargest(cs, i, Some(minArea)) ==>
      FindMovingObjectBbox(cs, minArea, margin) == if AcceptMoving(cs[i], margin) then Some(cs[i].rect) else None
  {
    forall i | IsFirstLargest(cs, i, Some(minArea))
      ensures FindMovingObjectBbox(cs, minArea, margin) == if AcceptMoving(cs[i], margin) then Some(cs[i].rect) else None
    {
      FirstLargestUnique(cs, FirstLargest(cs, Some(minArea)).value, i, Some(minArea));
    }
  }

  /** A large contour in the edge band hides a smaller acceptable one. */
  lemma MarginRefusalIsFinal()
    ensures var inBand := Contour(900.0, 900.0, 20, 240, Box(5, 225, 30, 30));
            var central := Contour(600.0, 600.0, 320, 240, Box(308, 228, 25, 25));
            FindMovingObjectBbox([inBand, central], 500.0, Some(80)) == None
            && FindMovingObjectBbox([central], 500.0, Some(80)) == Some(Box(308, 228, 25, 25))
  {
    var inBand := Contour(900.0, 900.0, 20, 240, Box(5, 225, 30, 30));
    var central := Contour(600.0, 600.0, 320, 240, Box(308, 228, 25, 25));
    assert IsFirstLargest([inBand, central], 0, Some(500.0));
    MovingBboxJudgesLargestOnly([inBand, central], 500.0, Some(80));
    assert IsFirstLargest([central], 0, Some(500.0));
    MovingBboxJudgesLargestOnly([central], 500.0, Some(80));
  }

  // ---------------------------------------------------------------------------------
  // Retrack9 / Retrack10: the first acceptable contour in OpenCV's order

  /** Accepted by the contour loop: area at least 500, non-zero `m00`, centroid off the 50-pixel edge bands. */
  predicate QualifiesFirst(c: Contour) {
    c.area >= 500.0 && c.m00 != 0.0 && !InNoTrackZone(c.cx, 50, WIDTH)
  }

  /** Index of the first acceptable contour. */
  function FirstQualifying(cs: seq<Contour>): (r: Option<nat>)
    ensures r.None? <==> forall j :: 0 <= j < |cs| ==> !QualifiesFirst(cs[j])
    ensures r.Some? ==> r.value < |cs| && QualifiesFirst(cs[r.value])
                        && forall j :: 0 <= j < r.value ==> !QualifiesFirst(cs[j])
  {
    if |cs| == 0 then None
    else if QualifiesFirst(cs[0]) then Some(0)
    else match FirstQualifying(cs[1..])
      case None => None
      case Some(i) => Some(i + 1)
  }

  /** The centroid of the first acceptable contour, if any. */
  function Detected(cs: seq<Contour>): (p: Option<Point>)
    ensures p.Some? <==> FirstQualifying(cs).Some?
  {
    match FirstQualifying(cs)
    case None => None
    case Some(i) => Some(Point(cs[i].cx, cs[i].cy))
  }

  /**
   * The `for contour in contours` loop of Retrack9 and Retrack10: skip small, degenerate
   * and edge contours, stop at the first acceptable one and report its centroid.
   */
  method FindFirstQualifying(cs: seq<Contour>) returns (found: bool, position: Point)
    ensures found <==> FirstQualifying(cs).Some?
    ensures found ==> position == Point(cs[FirstQualifying(cs).value].cx, cs[FirstQualifying(cs).value].cy)
  {
    found := false;
    position := Point(0, 0);
    var i := 0;
    while i < |cs|
      invariant 0 <= i <= |cs|
      invariant forall j :: 0 <= j < i ==> !QualifiesFirst(cs[j])
    {
      var c := cs[i];
      if c.area < 500.0 {
        i := i + 1;
        continue;
      }
      if c.m00 == 0.0 {
        i := i + 1;
        continue;
      }
      if c.cx < 50 || c.cx > WIDTH - 50 {
        i := i + 1;
        continue;
      }
      position := Point(c.cx, c.cy);
      found := true;
      FirstQualifyingIs(cs, i);
      return;
    }
  }

  lemma {:induction false} FirstQualifyingIs(cs: seq<Contour>, i: nat)
    requires i < |cs| && QualifiesFirst(cs[i])
    requires forall j :: 0 <= j < i ==> !QualifiesFirst(cs[j])
    ensures FirstQualifying(cs) == Some(i)
  {
    if i > 0 {
      FirstQualifyingIs(cs[1..], i - 1);
    }
  }

  /** The first acceptable contour wins even over a larger acceptable one after it. */
  lemma FirstQualifyingIsNotLargest()
    ensures var small := Contour(500.0, 500.0, 200, 240, Box(190, 230, 20, 25));
            var large := Contour(4000.0, 4000.0, 400, 240, Box(370, 210, 60, 60));
            FirstQualifying([small, large]) == Some(0)
  {
  }

  // ---------------------------------------------------------------------------------
  // Retrack8: largest contour against a fixed background

  /**
   * Retrack8's detection step: the largest contour, if its area exceeds 500 and its box
   * centre `x + w // 2` is not in the 50-pixel edge bands, gives the box to track.
   */
  function Retrack8Detect(cs: seq<Contour>): Option<Box> {
    match FirstLargest(cs, None)
    case None => None
    case Some(i) =>
      var r := cs[i].rect;
      if cs[i].area > 500.0 && !InNoTrackZone(r.x + r.w / 2, 50, WIDTH) then Some(r) else None
  }

  lemma Retrack8DetectJudgesLargestOnly(cs: seq<Contour>, i: int)
    requires IsFirstLargest(cs, i, None)
    ensures var r := cs[i].rect;
      Retrack8Detect(cs) == if cs[i].area > 500.0 && !InNoTrackZone(r.x + r.w / 2, 50, WIDTH) then Some(r) else None
  {
    FirstLargestUnique(cs, FirstLargest(cs, None).value, i, None);
  }

  // ---------------------------------------------------------------------------------
  // Dark-object detectors of the Track scripts

  /** Python's `(max_w and w > max_w)`: a cap of None or 0 is no cap. */
  predicate ExceedsCap(cap: Option<int>, v: int) {
    cap.Some? && cap.value != 0 && v > cap.value
  }

  /**
   * `find_object_bbox(frame, thresh_val, max_w, max_h)` of Track7, Track8, Track9 and
   * Track8b: the largest contour, refused when its area is below 500 or its box exceeds a
   * given cap.
   */
  function FindObjectBbox(cs: seq<Contour>, maxW: Option<int>, maxH: Option<int>): Option<Box> {
    match FirstLargest(cs, None)
    case None => None
    case Some(i) =>
      var r := cs[i].rect;
      if cs[i].area < 500.0 then None
      else if ExceedsCap(maxW, r.w) || ExceedsCap(maxH, r.h) then None
      else Some(r)
  }

  /** With caps given, an accepted box is never wider or taller than the caps. */
  lemma FindObjectBboxRespectsCaps(cs: seq<Contour>, maxW: int, maxH: int)
    requires maxW > 0 && maxH > 0
    ensures match FindObjectBbox(cs, Some(maxW), Some(maxH))
      case None => true
      case Some(b) => b.w <= maxW && b.h <= maxH
  {
  }

  lemma FindObjectBboxJudgesLargestOnly(cs: seq<Contour>, i: int, maxW: Option<int>, maxH: Option<int>)
    requires IsFirstLargest(cs, i, None)
    ensures var r := cs[i].rect;
      FindObjectBbox(cs, maxW, maxH)
        == if cs[i].area >= 500.0 && !ExceedsCap(maxW, r.w) && !ExceedsCap(maxH, r.h) then Some(r) else None
  {
    FirstLargestUnique(cs, FirstLargest(cs, None).value, i, None);
  }

  /** Track10's 100-pixel border: the whole box must lie inside the frame's inner band. */
  predicate InsideBorder(b: Box, border: int) {
    b.x >= border && b.y >= border && b.x + b.w <= WIDTH - border && b.y + b.h <= HEIGHT - border
  }

  /** Track10's `find_object_bbox`: largest contour, area at least 500, at most 320x240, inside the border. */
  function FindObjectBboxInBorder(cs: seq<Contour>): Option<Box> {
    match FirstLargest(cs, None)
    case None => None
    case Some(i) =>
      var r := cs[i].rect;
      if cs[i].area < 500.0 then None
      else if r.w > WIDTH / 2 || r.h > HEIGHT / 2 then None
      else if !InsideBorder(r, 100) then None
      else Some(r)
  }

  lemma FindObjectBboxInBorderJudgesLargestOnly(cs: seq<Contour>, i: int)
    requires IsFirstLargest(cs, i, None)
    ensures var r := cs[i].rect;
      FindObjectBboxInBorder(cs)
        == if cs[i].area >= 500.0 && r.w <= 320 && r.h <= 240 && InsideBorder(r, 100) then Some(r) else None
  {
    FirstLargestUnique(cs, FirstLargest(cs, None).value, i, None);
  }

  /** Track13's `find_object_bbox`: a 40x40 box on the mask centroid, refused unless inside the border. */
  function FindCentredBox(centroid: Option<Point>): (r: Option<Box>)
  {
    match centroid
    case None => None
    case Some(p) =>
      var b := Box(p.x - 40 / 2, p.y - 40 / 2, 40, 40);
      if b.x < 100 || b.y < 100 || b.x + b.w > WIDTH - 100 || b.y + b.h > HEIGHT - 100 then None else Some(b)
  }

  /** Track13 accepts exactly the centroids in [120, 520] x [120, 360], boxing them symmetrically. */
  lemma FindCentredBoxAccepts(p: Point)
    ensures FindCentredBox(Some(p)).Some? <==> 120 <= p.x <= 520 && 120 <= p.y <= 360
    ensures FindCentredBox(Some(p)).Some? ==>
      var b := FindCentredBox(Some(p)).value;
      InsideBorder(b, 100) && Centre(b) == p
  {
  }

  /** Tacker10f's `find_object_moments`: a 50x50 box on the mask centroid, clamped at 0 only. */
  function ClampedMomentsBox(centroid: Option<Point>): Option<Box> {
    match centroid
    case None => None
    case Some(p) => Some(Box(if p.x - 25 >= 0 then p.x - 25 else 0, if p.y - 25 >= 0 then p.y - 25 else 0, 50, 50))
  }

  /**
   * Every centroid gives a box with a non-negative corner, centred on the centroid once
   * it is 25 pixels from the top-left edges; nothing clamps the right or bottom edge.
   */
  lemma ClampedMomentsBoxShape(p: Point)
    ensures var b := ClampedMomentsBox(Some(p)).value;
      b.x >= 0 && b.y >= 0 && b.w == 50 && b.h == 50
      && (p.x >= 25 && p.y >= 25 ==> Centre(b) == p)
    ensures p.x > WIDTH - 25 ==> ClampedMomentsBox(Some(p)).value.x + 50 > WIDTH
  {
  }

  /** Tacker10e's `find_object_moments`: the mask centroid, refused within 100 pixels of any edge. */
  function CentroidInBorder(centroid: Option<Point>): Option<Point> {
    match centroid
    case None => None
    case Some(p) => if p.x < 100 || p.y < 100 || p.x > WIDTH - 100 || p.y > HEIGHT - 100 then None else Some(p)
  }

  lemma CentroidInBorderAccepts(p: Point)
    ensures CentroidInBorder(Some(p)) == Some(p) <==> 100 <= p.x <= 540 && 100 <= p.y <= 380
    ensures CentroidInBorder(Some(p)) != Some(p) ==> CentroidInBorder(Some(p)) == None
  {
  }

  /** The maximum-contrast detector of the older Tacker10i: a 50x50 box about `max_loc`, kept in the frame. */
  function MaxContrastBox(loc: Point): Box {
    var x := if 0 >= loc.x - 25 then 0 else loc.x - 25;
    var y := if 0 >= loc.y - 25 then 0 else loc.y - 25;
    Box(if x <= WIDTH - 50 then x else WIDTH - 50, if y <= HEIGHT - 50 then y else HEIGHT - 50, 50, 50)
  }

  /** The box always lies inside the 640x480 frame, and is centred on `max_loc` away from the edges. */
  lemma MaxContrastBoxInFrame(loc: Point)
    ensures var b := MaxContrastBox(loc);
      0 <= b.x && b.x + b.w <= WIDTH && 0 <= b.y && b.y + b.h <= HEIGHT
    ensures 25 <= loc.x <= WIDTH - 25 && 25 <= loc.y <= HEIGHT - 25 ==> Centre(MaxContrastBox(loc)) == loc
  {
  }
}
