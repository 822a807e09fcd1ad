/**
 * Track13: a MOSSE tracker on a fixed 40x40 box about the mask centroid, and two bonus
 * zones placed at random in two different quadrants of the safe area (the frame less a
 * 100-pixel border): a circle of radius 12 and a 30-pixel square. Each zone reports
 * the first time the tracked centre enters it and then switches itself off.
 *
 * The script's file ends inside the inner loop's drawing calls, so its key handling
 * and writer are not part of this model.
 */
module Track13 {
  import opened Wrappers
  import opened Geometry
  import opened Detectors

  const BORDER: int := 100
  const BONUS1_RADIUS: int := 12
  const BONUS2_SIDE: int := 30

  // ---------------------------------------------------------------------------------
  // Placing the bonus zones

  /** Python's `list.remove(x)`: drop the first occurrence. */
  function Remove(xs: seq<int>, x: int): (r: seq<int>)
    ensures x in xs ==> |r| == |xs| - 1
    ensures forall y :: y in r ==> y in xs
    ensures forall y :: y in xs && y != x ==> y in r
    ensures x in xs && (forall i, j :: 0 <= i < j < |xs| ==> xs[i] != xs[j]) ==> x !in r
  {
    if |xs| == 0 then []
    else if xs[0] == x then xs[1..]
    else [xs[0]] + Remove(xs[1..], x)
  }

  /**
   * The two quadrants: `random.choice` picks index `i` of `[1, 2, 3, 4]` for bonus1,
   * then index `j` of what is left after removing it for bonus2.
   */
  function BonusQuadrants(i: nat, j: nat): (int, int)
    requires i < 4 && j < 3
  {
    var quads := [1, 2, 3, 4];
    var b1 := quads[i];
    var rest := Remove(quads, b1);
    (b1, rest[j])
  }

  /** Whatever the random draws, the two zones are in two different quadrants. */
  lemma BonusQuadrantsDistinct(i: nat, j: nat)
    requires i < 4 && j < 3
    ensures var (b1, b2) := BonusQuadrants(i, j); b1 != b2 && 1 <= b1 <= 4 && 1 <= b2 <= 4
  {
    var quads := [1, 2, 3, 4];
    var rest := Remove(quads, quads[i]);
    assert rest[j] in rest;
  }

  /** The closed cell of quadrant `q` within the safe area, as (left, right, top, bottom). */
  function SafeCell(q: int): (int, int, int, int) {
    var left := if q == 1 || q == 3 then BORDER else WIDTH / 2;
    var right := if q == 1 || q == 3 then WIDTH / 2 else WIDTH - BORDER;
    var top := if q == 1 || q == 2 then BORDER else HEIGHT / 2;
    var bottom := if q == 1 || q == 2 then HEIGHT / 2 else HEIGHT - BORDER;
    (left, right, top, bottom)
  }

  /** The range `random.randint` draws bonus1's centre from: the cell inset by the radius. */
  function Bonus1Range(q: int): (int, int, int, int) {
    var r := BONUS1_RADIUS;
    if q == 1 then (BORDER + r, WIDTH / 2 - r, BORDER + r, HEIGHT / 2 - r)
    else if q == 2 then (WIDTH / 2 + r, WIDTH - BORDER - r, BORDER + r, HEIGHT / 2 - r)
    else if q == 3 then (BORDER + r, WIDTH / 2 - r, HEIGHT / 2 + r, HEIGHT - BORDER - r)
    else (WIDTH / 2 + r, WIDTH - BORDER - r, HEIGHT / 2 + r, HEIGHT - BORDER - r)
  }

  /** The range bonus2's top-left corner is drawn from: the cell less the side on the right and bottom. */
  function Bonus2Range(q: int): (int, int, int, int) {
    var s := BONUS2_SIDE;
    if q == 1 then (BORDER, WIDTH / 2 - s, BORDER, HEIGHT / 2 - s)
    else if q == 2 then (WIDTH / 2, WIDTH - BORDER - s, BORDER, HEIGHT / 2 - s)
    else if q == 3 then (BORDER, WIDTH / 2 - s, HEIGHT / 2, HEIGHT - BORDER - s)
    else (WIDTH / 2, WIDTH - BORDER - s, HEIGHT / 2, HEIGHT - BORDER - s)
  }

  predicate InRange(p: Point, range: (int, int, int, int)) {
    range.0 <= p.x <= range.1 && range.2 <= p.y <= range.3
  }

  /**
   * Any centre drawn for bonus1 in quadrant q keeps the whole circle inside q's cell of
   * the safe area, and `determine_quadrant` puts the centre itself in q.
   */
  lemma Bonus1InsideItsCell(q: int, c: Point)
    requires 1 <= q <= 4 && InRange(c, Bonus1Range(q))
    ensures var (left, right, top, bottom) := SafeCell(q);
      left <= c.x - BONUS1_RADIUS && c.x + BONUS1_RADIUS <= right
      && top <= c.y - BONUS1_RADIUS && c.y + BONUS1_RADIUS <= bottom
    ensures Quadrant(c.x, c.y, WIDTH, HEIGHT) == q
  {
  }

  /** Any corner drawn for bonus2 in quadrant q keeps the whole square inside q's cell of the safe area. */
  lemma Bonus2InsideItsCell(q: int, tl: Point)
    requires 1 <= q <= 4 && InRange(tl, Bonus2Range(q))
    ensures var (left, right, top, bottom) := SafeCell(q);
      left <= tl.x && tl.x + BONUS2_SIDE <= right && top <= tl.y && tl.y + BONUS2_SIDE <= bottom
  {
  }

  // ---------------------------------------------------------------------------------
  // The tracking loops

  /** Where the bonus zones ended up. */
  datatype Placement = Placement(center1: Point, corner2: Point)

  /** bonus1's circle test, boundary included. */
  predicate InBonus1(p: Placement, c: Point) {
    var dx, dy := c.x - p.center1.x, c.y - p.center1.y;
    dx * dx + dy * dy <= BONUS1_RADIUS * BONUS1_RADIUS
  }

  /** bonus2's square test, all four edges included. */
  predicate InBonus2(p: Placement, c: Point) {
    p.corner2.x <= c.x <= p.corner2.x + BONUS2_SIDE && p.corner2.y <= c.y <= p.corner2.y + BONUS2_SIDE
  }

  /** An entry message: which zone, seconds since start, and the "since last entry" figure if printed. */
  datatype Entry = Entry(zone: int, elapsed: real, sinceLast: Option<real>)

  /**
   * The outer loop searching for the object, or the inner loop following it; the two
   * latches with their last entry times; the entries printed; and whether it runs.
   */
  datatype State = State(
    following: bool,
    bonus1Active: bool, lastBonus1: Option<real>,
    bonus2Active: bool, lastBonus2: Option<real>,
    quadrants: seq<int>, entries: seq<Entry>, running: bool)

  /**
   * One pass: whether the grabber had a frame yet, the frame's mask centroid, the
   * tracker's reply, the clock (seconds since start), and the key.
   */
  datatype Tick = Tick(hasFrame: bool, centroid: Option<Point>, reply: Reply, elapsed: real, key: char)

  function Init(): State {
    State(false, true, None, true, None, [], [], true)
  }

  /** bonus1's check on a tracked centre: on entry print the time, the gap since the last entry if any, and switch off. */
  function CheckBonus1(p: Placement, s: State, c: Point, elapsed: real): State {
    if s.bonus1Active && InBonus1(p, c) then
      var since := if s.lastBonus1.Some? then Some(elapsed - s.lastBonus1.value) else None;
      s.(entries := s.entries + [Entry(1, elapsed, since)], lastBonus1 := Some(elapsed), bonus1Active := false)
    else s
  }

  function CheckBonus2(p: Placement, s: State, c: Point, elapsed: real): State {
    if s.bonus2Active && InBonus2(p, c) then
      var since := if s.lastBonus2.Some? then Some(elapsed - s.lastBonus2.value) else None;
      s.(entries := s.entries + [Entry(2, elapsed, since)], lastBonus2 := Some(elapsed), bonus2Active := false)
    else s
  }

  /**
   * Searching: a detection starts the tracker and enters the inner loop, none shows the
   * frame and 'q' ends the run. Following: a failed update goes back to searching; a
   * successful one prints the centre's quadrant and checks both zones.
   */
  function Step(p: Placement, s: State, t: Tick): State {
    if !s.running || !t.hasFrame then s
    else if !s.following then
      if FindCentredBox(t.centroid).Some? then s.(following := true)
      else s.(running := t.key != 'q')
    else if !t.reply.ok then s.(following := false)
    else
      var c := Centre(t.reply.box);
      var s1 := s.(quadrants := s.quadrants + [Quadrant(c.x, c.y, WIDTH, HEIGHT)]);
      CheckBonus2(p, CheckBonus1(p, s1, c, t.elapsed), c, t.elapsed)
  }

  function Run(p: Placement, s: State, ticks: seq<Tick>): State {
    if |ticks| == 0 then s else Step(p, Run(p, s, ticks[..|ticks| - 1]), ticks[|ticks| - 1])
  }

  lemma RunOneMore(p: Placement, s: State, ticks: seq<Tick>, i: nat)
    requires i < |ticks|
    ensures Run(p, s, ticks[..i + 1]) == Step(p, Run(p, s, ticks[..i]), ticks[i])
  {
    assert ticks[..i + 1][..i] == ticks[..i];
  }

  lemma {:induction false} RunAfterQuit(p: Placement, s: State, ticks: seq<Tick>, i: nat)
    requires i <= |ticks| && !Run(p, s, ticks[..i]).running
    ensures Run(p, s, ticks) == Run(p, s, ticks[..i])
    decreases |ticks| - i
  {
    if i < |ticks| {
      assert ticks[..i + 1][..i] == ticks[..i];
      RunAfterQuit(p, s, ticks, i + 1);
    } else {
      assert ticks[..i] == ticks;
    }
  }

  /**
   * The two nested `while True` loops of `main` as one loop over the passes: `following`
   * says which of the two the pass belongs to.
   */
  method MainLoop(p: Placement, ticks: seq<Tick>) returns (final: State)
    ensures final == Run(p, Init(), ticks)
  {
    var s := Init();
    assert ticks[..0] == [];
    var i := 0;
    while i < |ticks| && s.running
      invariant 0 <= i <= |ticks|
      invariant s == Run(p, Init(), ticks[..i])
    {
      RunOneMore(p, Init(), ticks, i);
      var t := ticks[i];
      i := i + 1;
      if !t.hasFrame {
        continue;
      }
      if !s.following {
        var bbox := FindCentredBox(t.centroid);
        if bbox.None? {
          if t.key == 'q' {
            s := s.(running := false);
          }
          continue;
        }
        s := s.(following := true);
        continue;
      }
      if !t.reply.ok {
        s := s.(following := false);
        continue;
      }
      var c := Centre(t.reply.box);
      s := s.(quadrants := s.quadrants + [Quadrant(c.x, c.y, WIDTH, HEIGHT)]);
      if s.bonus1Active && InBonus1(p, c) {
        var since := if s.lastBonus1.Some? then Some(t.elapsed - s.lastBonus1.value) else None;
        s := s.(entries := s.entries + [Entry(1, t.elapsed, since)], lastBonus1 := Some(t.elapsed), bonus1Active := false);
      }
      if s.bonus2Active && InBonus2(p, c) {
        var since := if s.lastBonus2.Some? then Some(t.elapsed - s.lastBonus2.value) else None;
        s := s.(entries := s.entries + [Entry(2, t.elapsed, since)], lastBonus2 := Some(t.elapsed), bonus2Active := false);
      }
    }
    if !s.running {
      RunAfterQuit(p, Init(), ticks, i);
    } else {
      assert ticks[..i] == ticks;
    }
    final := s;
  }

  // ---------------------------------------------------------------------------------
  // Properties

  function CountZone(es: seq<Entry>, zone: int): (n: nat)
    ensures n <= |es|
  {
    if |es| == 0 then 0
    else CountZone(es[..|es| - 1], zone) + (if es[|es| - 1].zone == zone then 1 else 0)
  }

  /**
   * Each latch is on exactly while its zone has not been entered, and its last entry time
   * is recorded exactly when it is off; no entry ever carries a "since last" figure.
   */
  predicate Latched(s: State) {
    (s.bonus1Active <==> CountZone(s.entries, 1) == 0) && (s.bonus1Active <==> s.lastBonus1.None?)
    && (s.bonus2Active <==> CountZone(s.entries, 2) == 0) && (s.bonus2Active <==> s.lastBonus2.None?)
    && CountZone(s.entries, 1) <= 1 && CountZone(s.entries, 2) <= 1
    && (forall i :: 0 <= i < |s.entries| ==> s.entries[i].sinceLast.None?)
    && (forall i :: 0 <= i < |s.entries| ==> s.entries[i].zone == 1 || s.entries[i].zone == 2)
  }

  lemma CountAppend(es: seq<Entry>, e: Entry, zone: int)
    ensures CountZone(es + [e], zone) == CountZone(es, zone) + (if e.zone == zone then 1 else 0)
  {
    assert (es + [e])[..|es|] == es;
  }

  lemma CheckBonus1KeepsLatched(p: Placement, s: State, c: Point, elapsed: real)
    requires Latched(s)
    ensures Latched(CheckBonus1(p, s, c, elapsed))
  {
    if s.bonus1Active && InBonus1(p, c) {
      CountAppend(s.entries, Entry(1, elapsed, None), 1);
      CountAppend(s.entries, Entry(1, elapsed, None), 2);
    }
  }

  lemma CheckBonus2KeepsLatched(p: Placement, s: State, c: Point, elapsed: real)
    requires Latched(s)
    ensures Latched(CheckBonus2(p, s, c, elapsed))
  {
    if s.bonus2Active && InBonus2(p, c) {
      CountAppend(s.entries, Entry(2, elapsed, None), 1);
      CountAppend(s.entries, Entry(2, elapsed, None), 2);
    }
  }

  lemma StepKeepsLatched(p: Placement, s: State, t: Tick)
    requires Latched(s)
    ensures Latched(Step(p, s, t))
  {
    if s.running && t.hasFrame && s.following && t.reply.ok {
      var c := Centre(t.reply.box);
      var s1 := s.(quadrants := s.quadrants + [Quadrant(c.x, c.y, WIDTH, HEIGHT)]);
      CheckBonus1KeepsLatched(p, s1, c, t.elapsed);
      CheckBonus2KeepsLatched(p, CheckBonus1(p, s1, c, t.elapsed), c, t.elapsed);
    }
  }

  /**
   * Over any run, each zone is reported at most once, and the "time since last entry"
   * message is never printed: the latch is off by the time a last entry exists.
   */
  lemma {:induction false} EachBonusAtMostOnce(p: Placement, ticks: seq<Tick>)
    ensures var r := Run(p, Init(), ticks);
      CountZone(r.entries, 1) <= 1 && CountZone(r.entries, 2) <= 1
      && forall i :: 0 <= i < |r.entries| ==> r.entries[i].sinceLast.None?
    ensures Latched(Run(p, Init(), ticks))
  {
    if |ticks| > 0 {
      EachBonusAtMostOnce(p, ticks[..|ticks| - 1]);
      StepKeepsLatched(p, Run(p, Init(), ticks[..|ticks| - 1]), ticks[|ticks| - 1]);
    }
  }

  /** A failed update always returns to the search for a fresh detection, and nothing is reported. */
  lemma FailureReturnsToSearch(p: Placement, s: State, t: Tick)
    requires s.running && t.hasFrame && s.following && !t.reply.ok
    ensures var r := Step(p, s, t); !r.following && r.entries == s.entries && r.quadrants == s.quadrants
  {
  }

  /** A searching pass enters the inner loop exactly when the 40x40 box fits inside the border. */
  lemma SearchStartsOnlyInsideBorder(p: Placement, s: State, t: Tick)
    requires s.running && t.hasFrame && !s.following
    ensures Step(p, s, t).following <==>
      t.centroid.Some? && 120 <= t.centroid.value.x <= 520 && 120 <= t.centroid.value.y <= 360
  {
    if t.centroid.Some? {
      FindCentredBoxAccepts(t.centroid.value);
    }
  }

  /** A pass without a frame yet changes nothing. */
  lemma NoFrameNoChange(p: Placement, s: State, t: Tick)
    requires !t.hasFrame
    ensures Step(p, s, t) == s
  {
  }
}
