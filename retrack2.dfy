/**
 * Retrack2: the helpers of the earliest retracking script. The script's main loop is cut
 * off mid-call, so only its detector, zones and file names are modelled.
 */
module Retrack2 {
  import opened Wrappers
  import opened Geometry
  import opened Detectors

  const MIN_AREA: real := 500.0
  const CENTER_RADIUS: int := 100

  /** `find_moving_object_bbox(current, previous)`: area above 500, the largest, refused when `m00` is 0; no edge margin. */
  function FindBbox(cs: seq<Contour>): Option<Box> {
    FindMovingObjectBbox(cs, MIN_AREA, None)
  }

  /**
   * Nothing is found unless some contour's area exceeds 500. Otherwise the largest is the
   * only one judged: its rectangle is returned when its zeroth moment is non-zero, wherever
   * its centroid lies, and None when it is zero.
   */
  lemma FindBboxRule(cs: seq<Contour>)
    ensures (forall j :: 0 <= j < |cs| ==> cs[j].area <= 500.0) ==> FindBbox(cs) == None
    ensures forall i :: IsFirstLargest(cs, i, Some(MIN_AREA)) ==>
      FindBbox(cs) == if cs[i].m00 != 0.0 then Some(cs[i].rect) else None
  {
    MovingBboxJudgesLargestOnly(cs, MIN_AREA, None);
  }

  /** Moving the centroid of the largest contour to the frame's edge changes nothing: no margin is checked. */
  lemma CentroidUnused(cs: seq<Contour>, i: nat, cx: int, cy: int)
    requires IsFirstLargest(cs, i, Some(MIN_AREA))
    ensures FindBbox(cs[i := cs[i].(cx := cx, cy := cy)]) == FindBbox(cs)
  {
    var moved := cs[i := cs[i].(cx := cx, cy := cy)];
    assert IsFirstLargest(moved, i, Some(MIN_AREA));
    MovingBboxJudgesLargestOnly(cs, MIN_AREA, None);
    MovingBboxJudgesLargestOnly(moved, MIN_AREA, None);
  }

  /** `in_center` with radius 100: the circle's edge is inside, one pixel past it is not. */
  lemma CentreBoundary()
    ensures InCenter(WIDTH / 2 + 100, HEIGHT / 2, CENTER_RADIUS)
    ensures !InCenter(WIDTH / 2 + 101, HEIGHT / 2, CENTER_RADIUS)
  {
    InCenterBoundary(100);
  }
}
