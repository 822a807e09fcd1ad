/**
 * The older Tacker10e: a hexagon drawn about the object, sized with 'b' and 'v', and a
 * KCF tracker started with 'p' on a box twice the hexagon's size about the mask
 * centroid. Frames are written only while tracking succeeds.
 */
module Tacker10e {
  import opened Wrappers
  import opened Geometry
  import opened Detectors

  const START_HEX_SIZE: int := 100
  const MIN_HEX_SIZE: int := 10
  const HEX_STEP: int := 10

  /** One pass: the mask centroid of the frame (None when `m00 == 0`), the tracker's reply and the key. */
  datatype Tick = Tick(centroid: Option<Point>, reply: Reply, key: char)

  /**
   * `hex_size`, `tracking`, the box the current tracker was started on (None before the
   * first start), the centre and size of the hexagon on each written frame, and whether
   * the loop runs.
   */
  datatype State = State(hexSize: int, tracking: bool, tracker: Option<Box>, written: seq<(Point, int)>, running: bool)

  function Init(): State {
    State(START_HEX_SIZE, false, None, [], true)
  }

  /** 'b' grows the hexagon by 10; 'v' shrinks it by 10 but not below 10. */
  function Resize(size: int, key: char): int {
    if key == 'b' then size + HEX_STEP
    else if key == 'v' then (if MIN_HEX_SIZE >= size - HEX_STEP then MIN_HEX_SIZE else size - HEX_STEP)
    else size
  }

  /** The box a 'p' start gives the tracker: `2 * hex_size` square about the centroid, corner clamped at 0. */
  function StartBox(c: Point, size: int): Box {
    Box(if c.x - size >= 0 then c.x - size else 0, if c.y - size >= 0 then c.y - size else 0, 2 * size, 2 * size)
  }

  /** 'p' toggles tracking; turning it on with a centroid inside the border starts a new tracker. */
  function Toggle(s: State, t: Tick): State {
    var on := !s.tracking;
    match (if on then CentroidInBorder(t.centroid) else None)
    case Some(c) => s.(tracking := on, tracker := Some(StartBox(c, s.hexSize)))
    case None => s.(tracking := on)
  }

  /** While tracking with a tracker, a successful update writes the frame with the hexagon on the box centre. */
  function Track(s: State, t: Tick): State {
    if s.tracking && s.tracker.Some? && t.reply.ok then s.(written := s.written + [(Centre(t.reply.box), s.hexSize)])
    else s
  }

  function Step(s: State, t: Tick): State {
    if !s.running then s
    else
      var keyed := if t.key == 'p' then Toggle(s, t) else s.(hexSize := Resize(s.hexSize, t.key));
      Track(keyed, t).(running := t.key != 'q')
  }

  function Run(s: State, ticks: seq<Tick>): State {
    if |ticks| == 0 then s else Step(Run(s, ticks[..|ticks| - 1]), ticks[|ticks| - 1])
  }

  lemma RunOneMore(s: State, ticks: seq<Tick>, i: nat)
    requires i < |ticks|
    ensures Run(s, ticks[..i + 1]) == Step(Run(s, ticks[..i]), ticks[i])
  {
    assert ticks[..i + 1][..i] == ticks[..i];
  }

  lemma {:induction false} RunAfterQuit(s: State, ticks: seq<Tick>, i: nat)
    requires i <= |ticks| && !Run(s, ticks[..i]).running
    ensures Run(s, ticks) == Run(s, ticks[..i])
    decreases |ticks| - i
  {
    if i < |ticks| {
      assert ticks[..i + 1][..i] == ticks[..i];
      RunAfterQuit(s, ticks, i + 1);
    } else {
      assert ticks[..i] == ticks;
    }
  }

  /** The loop of `main` as written, with its locals. */
  method HexLoop(ticks: seq<Tick>) returns (final: State)
    ensures final == Run(Init(), ticks)
  {
    var hexSize, tracking, tracker, written, running := START_HEX_SIZE, false, None, [], true;
    assert ticks[..0] == [];
    var i := 0;
    while i < |ticks| && running
      invariant 0 <= i <= |ticks|
      invariant State(hexSize, tracking, tracker, written, running) == Run(Init(), ticks[..i])
    {
      RunOneMore(Init(), ticks, i);
      var t := ticks[i];
      if t.key == 'b' {
        hexSize := hexSize + HEX_STEP;
      } else if t.key == 'v' {
        hexSize := if MIN_HEX_SIZE >= hexSize - HEX_STEP then MIN_HEX_SIZE else hexSize - HEX_STEP;
      } else if t.key == 'p' {
        tracking := !tracking;
        if tracking {
          var center := CentroidInBorder(t.centroid);
          if center.Some? {
            tracker := Some(StartBox(center.value, hexSize));
          }
        }
      }
      if tracking && tracker.Some? {
        if t.reply.ok {
          written := written + [(Centre(t.reply.box), hexSize)];
        }
      }
      running := t.key != 'q';
      i := i + 1;
    }
    if !running {
      RunAfterQuit(Init(), ticks, i);
    } else {
      assert ticks[..i] == ticks;
    }
    final := State(hexSize, tracking, tracker, written, running);
  }

  // ---------------------------------------------------------------------------------
  // Properties

  /** The hexagon never shrinks below 10, and every tracker box is a square of twice a size at least 10 with a non-negative corner. */
  predicate Valid(s: State) {
    s.hexSize >= MIN_HEX_SIZE
    && (s.tracker.Some? ==> var b := s.tracker.value; b.x >= 0 && b.y >= 0 && b.w == b.h && b.w >= 2 * MIN_HEX_SIZE)
    && forall i :: 0 <= i < |s.written| ==> s.written[i].1 >= MIN_HEX_SIZE
  }

  lemma StepKeepsValid(s: State, t: Tick)
    requires Valid(s)
    ensures Valid(Step(s, t))
  {
  }

  lemma {:induction false} RunKeepsValid(ticks: seq<Tick>)
    ensures Valid(Run(Init(), ticks))
  {
    if |ticks| > 0 {
      RunKeepsValid(ticks[..|ticks| - 1]);
      StepKeepsValid(Run(Init(), ticks[..|ticks| - 1]), ticks[|ticks| - 1]);
    }
  }

  /** 'b' and 'v' move the size by exactly 10 except where the floor of 10 stops 'v'. */
  lemma ResizeRule(size: int, key: char)
    requires size >= MIN_HEX_SIZE
    ensures key == 'b' ==> Resize(size, key) == size + 10
    ensures key == 'v' ==> Resize(size, key) == if size >= 20 then size - 10 else 10
    ensures key != 'b' && key != 'v' ==> Resize(size, key) == size
    ensures Resize(size, key) >= MIN_HEX_SIZE
  {
  }

  /** Once started, a tracker is never cleared: every pass leaves one in place. */
  lemma TrackerNeverCleared(s: State, t: Tick)
    requires s.tracker.Some?
    ensures Step(s, t).tracker.Some?
  {
  }

  /**
   * Turning tracking on without a centroid inside the border keeps the previous tracker,
   * which goes on being updated and can still write frames.
   */
  lemma StaleTrackerKept(s: State, t: Tick)
    requires s.running && !s.tracking && s.tracker.Some? && t.key == 'p' && CentroidInBorder(t.centroid).None? && t.reply.ok
    ensures var r := Step(s, t);
      r.tracking && r.tracker == s.tracker && r.written == s.written + [(Centre(t.reply.box), s.hexSize)]
  {
  }

  /** A frame is written exactly when the pass ends tracking, with a tracker, and the update succeeds. */
  lemma WritesOnlyWhileTracking(s: State, t: Tick)
    requires s.running
    ensures var r := Step(s, t);
      (r.written == s.written + [(Centre(t.reply.box), r.hexSize)] <==> r.tracking && r.tracker.Some? && t.reply.ok)
      && (r.written == s.written <==> !(r.tracking && r.tracker.Some? && t.reply.ok))
  {
    var r := Step(s, t);
    if r.tracking && r.tracker.Some? && t.reply.ok {
      assert |r.written| == |s.written| + 1;
    }
  }

  /** 'p' with a centroid inside the border starts a tracker on the `2 * hex_size` square about it. */
  lemma ToggleOnStarts(s: State, t: Tick, c: Point)
    requires s.running && !s.tracking && t.key == 'p' && CentroidInBorder(t.centroid) == Some(c)
    ensures var r := Step(s, t); r.tracking && r.tracker == Some(StartBox(c, s.hexSize))
    ensures s.hexSize >= 0 && c.x >= s.hexSize && c.y >= s.hexSize ==> Centre(StartBox(c, s.hexSize)) == c
  {
  }
}
