/**
 * Arena geometry shared by the tracking scripts: box centres, the six 60-degree piezo
 * sectors around the frame centre, the central disc, the four frame quadrants and the
 * no-track bands at the left and right edges.
 *
 * The scripts compute a sector as `int(((atan2(dy, dx) in degrees) % 360) // 60) + 1`.
 * Here the same sector is decided exactly on the integer offsets: a 60-degree boundary
 * ray has slope sqrt(3), so the comparisons become `dy*dy` against `3*dx*dx`, and the
 * signs of numbers `a + b*sqrt(3)` with integer `a`, `b` are decided on integers too.
 */
module Geometry {

  const WIDTH: int := 640
  const HEIGHT: int := 480

  datatype Point = Point(x: int, y: int)

  /** An OpenCV rectangle `(x, y, w, h)`: top-left corner, width and height. */
  datatype Box = Box(x: int, y: int, w: int, h: int)

  /** `(x + w // 2, y + h // 2)`; Dafny's `/` by 2 floors like Python's `//`. */
  function Centre(b: Box): Point {
    Point(b.x + b.w / 2, b.y + b.h / 2)
  }

  // ---------------------------------------------------------------------------------
  // Signs of a + b*sqrt(3)

  /** `a + b*sqrt(3) > 0`, decided on integers. */
  predicate PositiveRoot3(a: int, b: int) {
    if b == 0 then a > 0
    else if a >= 0 && b > 0 then true
    else if a <= 0 && b < 0 then false
    else if a > 0 then a * a > 3 * b * b
    else 3 * b * b > a * a
  }

  predicate NegativeRoot3(a: int, b: int) {
    PositiveRoot3(-a, -b)
  }

  lemma SquareResidue(a: nat)
    ensures (a * a) % 3 == 0 ==> a % 3 == 0
  {
    var q := a / 3;
    if a % 3 == 1 {
      assert a == 3 * q + 1;
      assert a * a == 3 * (3 * q * q + 2 * q) + 1;
    } else if a % 3 == 2 {
      assert a == 3 * q + 2;
      assert a * a == 3 * (3 * q * q + 4 * q + 1) + 1;
    }
  }

  /** sqrt(3) is irrational: `a*a == 3*b*b` only at zero (infinite descent). */
  lemma {:induction false} NoRationalRoot3(a: nat, b: nat)
    requires a * a == 3 * b * b
    ensures a == 0 && b == 0
    decreases a
  {
    if a > 0 {
      assert (a * a) % 3 == 0 by {
        assert a * a == 3 * (b * b);
      }
      SquareResidue(a);
      var c := a / 3;
      assert a * a == 9 * (c * c) by {
        assert a == 3 * c;
      }
      assert b * b == 3 * (c * c);
      assert b < a by {
        if b >= a {
          MulMonotone(a, b);
        }
      }
      NoRationalRoot3(b, c);
    }
  }

  lemma MulMonotone(a: nat, b: nat)
    requires a <= b
    ensures a * a <= b * b
  {
    assert a * a <= a * b;
    assert a * b <= b * b;
  }

  // ---------------------------------------------------------------------------------
  // Sectors

  /**
   * The sector (1..6) of the offset (dx, dy) from the centre: sector k holds the angles
   * in [60(k-1), 60k) degrees of `atan2(dy, dx) % 360`. The centre itself has angle 0.
   */
  function Sector(dx: int, dy: int): (k: int)
    ensures 1 <= k <= 6
  {
    if dy > 0 then
      if dy * dy > 3 * dx * dx then 2 else if dx > 0 then 1 else 3
    else if dy == 0 then
      if dx < 0 then 4 else 1
    else
      if dy * dy > 3 * dx * dx then 5 else if dx > 0 then 6 else 4
  }

  /**
   * Cross product of the boundary ray at `60*j` degrees (scaled to length 2) with
   * (dx, dy), as the pair (a, b) meaning `a + b*sqrt(3)`. It is positive exactly when the
   * point lies strictly counter-clockwise of that ray, within half a turn.
   */
  function RayCross(j: int, dx: int, dy: int): (int, int)
    requires 0 <= j < 6
  {
    if j == 0 then (2 * dy, 0)
    else if j == 1 then (dy, -dx)
    else if j == 2 then (-dy, -dx)
    else if j == 3 then (-2 * dy, 0)
    else if j == 4 then (-dy, dx)
    else (dy, dx)
  }

  /** The half-open wedge [60(k-1), 60k) degrees, as two half-plane tests. */
  predicate InWedge(k: int, dx: int, dy: int)
    requires 1 <= k <= 6
  {
    var (a0, b0) := RayCross(k - 1, dx, dy);
    var (a1, b1) := RayCross(k % 6, dx, dy);
    !NegativeRoot3(a0, b0) && NegativeRoot3(a1, b1)
  }

  lemma NotOnSteepRay(dx: int, dy: int)
    requires dx != 0 || dy != 0
    ensures dy * dy != 3 * dx * dx
  {
    if dy * dy == 3 * dx * dx {
      var a: nat := if dy >= 0 then dy else -dy;
      var b: nat := if dx >= 0 then dx else -dx;
      assert a * a == dy * dy && b * b == dx * dx;
      NoRationalRoot3(a, b);
    }
  }

  /**
   * Away from the centre, `Sector` picks exactly the wedge the point lies in: the six
   * half-open 60-degree wedges partition the plane and each angle gets one sector.
   */
  lemma SectorIsWedge(dx: int, dy: int, k: int)
    requires dx != 0 || dy != 0
    requires 1 <= k <= 6
    ensures InWedge(k, dx, dy) <==> Sector(dx, dy) == k
  {
    NotOnSteepRay(dx, dy);
  }

  /** The centre has angle `atan2(0, 0) == 0`, so it falls in sector 1. */
  lemma SectorOfCentre()
    ensures Sector(0, 0) == 1
  {
  }

  /** The rays at 0 and 180 degrees belong to the sectors that begin there. */
  lemma SectorBoundaryRays(d: int)
    requires d > 0
    ensures Sector(d, 0) == 1 && Sector(-d, 0) == 4
  {
  }

  /** Half a turn about the centre moves a point three sectors on. */
  lemma SectorHalfTurn(dx: int, dy: int)
    requires dx != 0 || dy != 0
    ensures Sector(-dx, -dy) == (Sector(dx, dy) + 2) % 6 + 1
  {
  }

  /** Reflection in the horizontal axis maps sector k to 7 - k off that axis. */
  lemma SectorMirror(dx: int, dy: int)
    requires dy != 0
    ensures Sector(dx, -dy) == 7 - Sector(dx, dy)
  {
  }

  /** `determine_piezone(cx, cy)` for a 640x480 frame. */
  function DeterminePiezone(cx: int, cy: int): (zone: int)
    ensures 1 <= zone <= 6
  {
    Sector(cx - WIDTH / 2, cy - HEIGHT / 2)
  }

  // ---------------------------------------------------------------------------------
  // Centre disc, quadrants, edge bands

  /** `in_center(cx, cy)`: inside or on the circle of the given radius about the frame centre. */
  predicate InCenter(cx: int, cy: int, radius: int) {
    var dx, dy := cx - WIDTH / 2, cy - HEIGHT / 2;
    dx * dx + dy * dy <= radius * radius
  }

  /** The circle's own boundary counts as inside; one pixel further out does not. */
  lemma InCenterBoundary(radius: nat)
    ensures InCenter(WIDTH / 2 + radius, HEIGHT / 2, radius)
    ensures InCenter(WIDTH / 2, HEIGHT / 2 - radius, radius)
    ensures !InCenter(WIDTH / 2 + radius + 1, HEIGHT / 2, radius)
  {
  }

  /** A larger radius never excludes a point a smaller one includes. */
  lemma InCenterMonotone(cx: int, cy: int, r: nat, r': nat)
    requires r <= r' && InCenter(cx, cy, r)
    ensures InCenter(cx, cy, r')
  {
    assert r * r <= r' * r' by {
      assert r * r <= r * r';
      assert r * r' <= r' * r';
    }
  }

  /** `determine_quadrant(cx, cy, width, height)`; `cx < width/2` in floats is `2*cx < width`. */
  function Quadrant(cx: int, cy: int, width: int, height: int): (q: int)
    ensures 1 <= q <= 4
  {
    if 2 * cx < width && 2 * cy < height then 1
    else if 2 * cx >= width && 2 * cy < height then 2
    else if 2 * cx < width && 2 * cy >= height then 3
    else 4
  }

  /** Quadrant q is the q-th cell of the 2x2 grid, read left to right and top to bottom. */
  lemma QuadrantIsCell(cx: int, cy: int, width: int, height: int)
    ensures var col := if 2 * cx < width then 0 else 1;
            var row := if 2 * cy < height then 0 else 1;
            Quadrant(cx, cy, width, height) == 1 + col + 2 * row
  {
  }

  /** `x < margin or x > width - margin`: the edge bands where tracking is refused. */
  predicate InNoTrackZone(x: int, margin: int, width: int) {
    x < margin || x > width - margin
  }
}
