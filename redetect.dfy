/**
 * The tracking loop the Track and Tacker scripts share: each pass asks the tracker for
 * its box; on failure it runs the script's detector on the frame and, if that finds a
 * box, replaces the tracker with one started on it; the frame is written, labelled
 * with the box's quadrant when there is a box, and 'q' ends the loop.
 *
 * Scripts covered: Track7, Track8, Track9, Track8b, the older Track10 (which also
 * treats a tracked box that touches its 100-pixel border as a failure), Tacker10f,
 * tacker10h and the older Tacker10i; plus the wait-for-motion start-up loop of
 * tacker10h and both Tacker10i versions (the newer Tacker10i ends inside that loop).
 */
module Redetect {
  import opened Wrappers
  import opened Geometry
  import opened Detectors

  datatype Script = Track7 | Track8 | Track9 | Track8b | Track10 | Tacker10f | Tacker10h | Tacker10i | Tacker10iOld

  /**
   * What the detectors see of one captured frame: the contour summaries of its mask
   * (for tacker10h and Tacker10i, of its difference from `previous_frame`), the
   * centroid of its whole mask, and the location `minMaxLoc` reports.
   */
  datatype Frame = Frame(contours: seq<Contour>, centroid: Option<Point>, maxLoc: Point)

  /** The scripts that difference each frame against the one before it. */
  predicate DiffersFrames(sc: Script) {
    sc == Tacker10h || sc == Tacker10i || sc == Tacker10iOld
  }

  /** Each script's detector; the Track scripts cap the box at half the frame. */
  function Detect(sc: Script, f: Frame): Option<Box> {
    match sc
    case Track7 => FindObjectBbox(f.contours, Some(WIDTH / 2), Some(HEIGHT / 2))
    case Track8 => FindObjectBbox(f.contours, Some(WIDTH / 2), Some(HEIGHT / 2))
    case Track9 => FindObjectBbox(f.contours, Some(WIDTH / 2), Some(HEIGHT / 2))
    case Track8b => FindObjectBbox(f.contours, Some(WIDTH / 2), Some(HEIGHT / 2))
    case Track10 => FindObjectBboxInBorder(f.contours)
    case Tacker10f => ClampedMomentsBox(f.centroid)
    case Tacker10h => FindMovingObjectBbox(f.contours, 500.0, None)
    case Tacker10i => FindMovingObjectBbox(f.contours, 2000.0, None)
    case Tacker10iOld => Some(MaxContrastBox(f.maxLoc))
  }

  /** The shape every box a script's detector hands to `tracker.init` has. */
  predicate FitsTracker(sc: Script, b: Box) {
    match sc
    case Track10 => b.w <= 320 && b.h <= 240 && InsideBorder(b, 100)
    case Tacker10f => b.x >= 0 && b.y >= 0 && b.w == 50 && b.h == 50
    case Tacker10iOld => b.w == 50 && b.h == 50 && 0 <= b.x && b.x + b.w <= WIDTH && 0 <= b.y && b.y + b.h <= HEIGHT
    case Tacker10h => true
    case Tacker10i => true
    case _ => b.w <= 320 && b.h <= 240
  }

  lemma DetectFits(sc: Script, f: Frame)
    ensures Detect(sc, f).Some? ==> FitsTracker(sc, Detect(sc, f).value)
  {
    match sc
    case Track7 => FindObjectBboxRespectsCaps(f.contours, 320, 240);
    case Track8 => FindObjectBboxRespectsCaps(f.contours, 320, 240);
    case Track9 => FindObjectBboxRespectsCaps(f.contours, 320, 240);
    case Track8b => FindObjectBboxRespectsCaps(f.contours, 320, 240);
    case Track10 =>
    case Tacker10f =>
      if f.centroid.Some? {
        ClampedMomentsBoxShape(f.centroid.value);
      }
    case Tacker10h =>
    case Tacker10i =>
    case Tacker10iOld => MaxContrastBoxInFrame(f.maxLoc);
  }

  /** Only the older Tacker10i's detector can never come back empty. */
  lemma MaxContrastNeverEmpty(f: Frame)
    ensures Detect(Tacker10iOld, f).Some?
    ensures Detect(Track7, Frame([], None, f.maxLoc)).None? && Detect(Tacker10h, Frame([], None, f.maxLoc)).None?
    ensures Detect(Tacker10f, Frame([], None, f.maxLoc)).None? && Detect(Track10, Frame([], None, f.maxLoc)).None?
  {
  }

  /** The quadrant printed for a box: that of its centre `(x + w//2, y + h//2)` in the 640x480 frame. */
  function BoxQuadrant(b: Box): (q: int)
    ensures 1 <= q <= 4
  {
    Quadrant(Centre(b).x, Centre(b).y, WIDTH, HEIGHT)
  }

  // ---------------------------------------------------------------------------------
  // Start-up

  /** One pass of the wait loop: the frame, its position in the capture order, and the key. */
  datatype Poll = Poll(frame: Frame, id: nat, key: char)

  /** How a wait loop ends: 'q' after `polled` frames, a box in the `polled`-th frame, or not yet. */
  datatype Waited = Quit(polled: nat) | Found(box: Box, polled: nat) | StillWaiting

  /** `while bbox is None`: detect, keep the frame as `previous_frame`, and stop on 'q' or a box. */
  function Wait(sc: Script, ps: seq<Poll>): Waited
    decreases |ps|
  {
    if |ps| == 0 then StillWaiting
    else if ps[0].key == 'q' then Quit(1)
    else if Detect(sc, ps[0].frame).Some? then Found(Detect(sc, ps[0].frame).value, 1)
    else match Wait(sc, ps[1..])
      case Quit(n) => Quit(n + 1)
      case Found(b, n) => Found(b, n + 1)
      case StillWaiting => StillWaiting
  }

  /**
   * The wait ends at the first poll that finds a box or reads 'q', 'q' taking precedence,
   * and the box is that poll's detection; it waits on only while every poll so far is empty.
   */
  lemma {:induction false} WaitStopsAtFirst(sc: Script, ps: seq<Poll>)
    ensures match Wait(sc, ps)
      case Quit(n) => 1 <= n <= |ps| && ps[n - 1].key == 'q'
        && forall j :: 0 <= j < n - 1 ==> ps[j].key != 'q' && Detect(sc, ps[j].frame).None?
      case Found(b, n) => 1 <= n <= |ps| && ps[n - 1].key != 'q' && Detect(sc, ps[n - 1].frame) == Some(b)
        && forall j :: 0 <= j < n - 1 ==> ps[j].key != 'q' && Detect(sc, ps[j].frame).None?
      case StillWaiting => forall j :: 0 <= j < |ps| ==> ps[j].key != 'q' && Detect(sc, ps[j].frame).None?
    decreases |ps|
  {
    if |ps| > 0 && ps[0].key != 'q' && Detect(sc, ps[0].frame).None? {
      WaitStopsAtFirst(sc, ps[1..]);
      assert forall j :: 1 <= j < |ps| ==> ps[j] == ps[1..][j - 1];
    }
  }

  /** The older Tacker10i's detector always returns a box, so its wait ends after one frame. */
  lemma OldTacker10iWaitsOneFrame(ps: seq<Poll>)
    requires |ps| > 0
    ensures Wait(Tacker10iOld, ps).polled == 1
  {
  }

  /** The wait loop as written, over the frames the camera delivers. */
  method WaitForMotion(sc: Script, ps: seq<Poll>) returns (outcome: Waited)
    ensures outcome == Wait(sc, ps)
  {
    var i := 0;
    while i < |ps|
      invariant 0 <= i <= |ps|
      invariant Wait(sc, ps) == ShiftWaited(Wait(sc, ps[i..]), i)
    {
      var bbox := Detect(sc, ps[i].frame);
      if ps[i].key == 'q' {
        return Quit(i + 1);
      }
      if bbox.Some? {
        return Found(bbox.value, i + 1);
      }
      assert ps[i..][1..] == ps[i + 1..];
      i := i + 1;
    }
    return StillWaiting;
  }

  /** A wait outcome seen from `k` polls earlier. */
  function ShiftWaited(w: Waited, k: nat): Waited {
    match w
    case Quit(n) => Quit(n + k)
    case Found(b, n) => Found(b, n + k)
    case StillWaiting => StillWaiting
  }

  // ---------------------------------------------------------------------------------
  // The tracking loop

  /**
   * The loop's state: the boxes handed to `tracker.init` in order, the box drawn on each
   * written frame (None when the pass was searching), the capture position of the frame
   * kept as `previous_frame` (frame-difference scripts only), and whether it runs.
   */
  datatype State = State(inits: seq<Box>, shown: seq<Option<Box>>, previous: nat, running: bool)

  /** One pass: the frame, its capture position, the tracker's reply, and the key. */
  datatype Tick = Tick(frame: Frame, id: nat, reply: Reply, key: char)

  /** How a script can start tracking. */
  datatype Start = Started(state: State) | NoObject | InitWithNone | QuitWhileWaiting | Waiting

  /**
   * Start-up without a wait loop: detect once; the Track scripts raise `RuntimeError`
   * when nothing is found, while Tacker10f hands `None` to `tracker.init` unchecked.
   */
  function StartFromFirstFrame(sc: Script, f: Frame): Start
    requires !DiffersFrames(sc)
  {
    match Detect(sc, f)
    case Some(b) => Started(State([b], [], 0, true))
    case None => if sc == Tacker10f then InitWithNone else NoObject
  }

  /** Start-up of the frame-difference scripts: the wait loop's box starts the tracker. */
  function StartAfterWait(sc: Script, ps: seq<Poll>): Start
    requires DiffersFrames(sc)
  {
    match Wait(sc, ps)
    case Quit(_) => QuitWhileWaiting
    case StillWaiting => Waiting
    case Found(b, n) => if n <= |ps| then Started(State([b], [], ps[n - 1].id, true)) else Waiting
  }

  /** The tracker's reply counts as success: `ok`, and for Track10 the box clear of the border. */
  predicate Accepts(sc: Script, r: Reply) {
    r.ok && (sc != Track10 || InsideBorder(r.box, 100))
  }

  /** Every pass writes one frame; re-detection replaces the tracker only after a failure. */
  function Step(sc: Script, s: State, t: Tick): State
    requires sc != Tacker10i
  {
    if !s.running then s
    else
      var box := if Accepts(sc, t.reply) then Some(t.reply.box) else Detect(sc, t.frame);
      var reinit := !Accepts(sc, t.reply) && box.Some?;
      s.(inits := if reinit then s.inits + [box.value] else s.inits,
         shown := s.shown + [box],
         previous := if DiffersFrames(sc) then t.id else s.previous,
         running := t.key != 'q')
  }

  function Run(sc: Script, s: State, ticks: seq<Tick>): State
    requires sc != Tacker10i
  {
    if |ticks| == 0 then s else Step(sc, Run(sc, s, ticks[..|ticks| - 1]), ticks[|ticks| - 1])
  }

  lemma RunOneMore(sc: Script, s: State, ticks: seq<Tick>, i: nat)
    requires sc != Tacker10i && i < |ticks|
    ensures Run(sc, s, ticks[..i + 1]) == Step(sc, Run(sc, s, ticks[..i]), ticks[i])
  {
    assert ticks[..i + 1][..i] == ticks[..i];
  }

  lemma {:induction false} RunAfterQuit(sc: Script, s: State, ticks: seq<Tick>, i: nat)
    requires sc != Tacker10i && i <= |ticks| && !Run(sc, s, ticks[..i]).running
    ensures Run(sc, s, ticks) == Run(sc, s, ticks[..i])
    decreases |ticks| - i
  {
    if i < |ticks| {
      assert ticks[..i + 1][..i] == ticks[..i];
      RunAfterQuit(sc, s, ticks, i + 1);
    } else {
      assert ticks[..i] == ticks;
    }
  }

  /** The passes a run makes: up to and including the first 'q', or all of them. */
  function Passes(ticks: seq<Tick>): (n: nat)
    ensures n <= |ticks|
    ensures forall j :: 0 <= j < n - 1 ==> ticks[j].key != 'q'
    ensures (n >= 1 && ticks[n - 1].key == 'q') || (n == |ticks| && forall j :: 0 <= j < n ==> ticks[j].key != 'q')
  {
    if |ticks| == 0 then 0
    else if ticks[0].key == 'q' then 1
    else
      assert forall j :: 1 <= j < |ticks| ==> ticks[1..][j - 1] == ticks[j];
      1 + Passes(ticks[1..])
  }

  /** The tracking loop as written: `tracker`, `bbox` and `success` are locals of `main`. */
  method TrackLoop(sc: Script, start: State, ticks: seq<Tick>) returns (final: State)
    requires sc != Tacker10i
    ensures final == Run(sc, start, ticks)
  {
    var inits, shown, previous, running := start.inits, start.shown, start.previous, start.running;
    assert ticks[..0] == [];
    var i := 0;
    while i < |ticks| && running
      invariant 0 <= i <= |ticks|
      invariant State(inits, shown, previous, running) == Run(sc, start, ticks[..i])
    {
      RunOneMore(sc, start, ticks, i);
      var t := ticks[i];
      var success, bbox := t.reply.ok, t.reply.box;
      if sc == Track10 && success && !InsideBorder(bbox, 100) {
        success := false;
      }
      if !success {
        var newBox := Detect(sc, t.frame);
        if newBox.Some? {
          inits := inits + [newBox.value];
          bbox := newBox.value;
          success := true;
        }
      }
      shown := shown + [if success then Some(bbox) else None];
      if DiffersFrames(sc) {
        previous := t.id;
      }
      running := t.key != 'q';
      i := i + 1;
    }
    if !running {
      RunAfterQuit(sc, start, ticks, i);
    } else {
      assert ticks[..i] == ticks;
    }
    final := State(inits, shown, previous, running);
  }

  // ---------------------------------------------------------------------------------
  // Properties

  /** The tracker is started only on boxes its detector accepts, and Track10 only ever draws boxes clear of its border. */
  predicate Valid(sc: Script, s: State) {
    (forall i :: 0 <= i < |s.inits| ==> FitsTracker(sc, s.inits[i]))
    && (sc == Track10 ==> forall i :: 0 <= i < |s.shown| && s.shown[i].Some? ==> InsideBorder(s.shown[i].value, 100))
  }

  lemma StartValid(sc: Script, f: Frame)
    requires !DiffersFrames(sc) && StartFromFirstFrame(sc, f).Started?
    ensures Valid(sc, StartFromFirstFrame(sc, f).state)
  {
    DetectFits(sc, f);
  }

  lemma StartAfterWaitValid(sc: Script, ps: seq<Poll>)
    requires DiffersFrames(sc) && StartAfterWait(sc, ps).Started?
    ensures Valid(sc, StartAfterWait(sc, ps).state)
  {
    WaitStopsAtFirst(sc, ps);
    var n := Wait(sc, ps).polled;
    DetectFits(sc, ps[n - 1].frame);
  }

  lemma StepKeepsValid(sc: Script, s: State, t: Tick)
    requires sc != Tacker10i && Valid(sc, s)
    ensures Valid(sc, Step(sc, s, t))
  {
    DetectFits(sc, t.frame);
    if s.running && sc == Track10 {
      var r := Step(sc, s, t);
      assert r.shown == s.shown + [r.shown[|s.shown|]];
      assert forall i :: 0 <= i < |r.shown| - 1 ==> r.shown[i] == s.shown[i];
    }
  }

  lemma {:induction false} RunKeepsValid(sc: Script, s: State, ticks: seq<Tick>)
    requires sc != Tacker10i && Valid(sc, s)
    ensures Valid(sc, Run(sc, s, ticks))
  {
    if |ticks| > 0 {
      RunKeepsValid(sc, s, ticks[..|ticks| - 1]);
      StepKeepsValid(sc, Run(sc, s, ticks[..|ticks| - 1]), ticks[|ticks| - 1]);
    }
  }

  /** Exactly one frame is written per pass, and the loop runs until the first 'q'. */
  lemma {:induction false} RunWritesOneFramePerPass(sc: Script, s: State, ticks: seq<Tick>)
    requires sc != Tacker10i && s.running
    ensures var r := Run(sc, s, ticks);
      |r.shown| == |s.shown| + Passes(ticks)
      && (r.running <==> forall j :: 0 <= j < |ticks| ==> ticks[j].key != 'q')
  {
    if |ticks| > 0 {
      var m := |ticks| - 1;
      var prefix := ticks[..m];
      RunWritesOneFramePerPass(sc, s, prefix);
      assert forall j :: 0 <= j < m ==> prefix[j] == ticks[j];
    }
  }

  /**
   * What a pass draws: the tracker's box when it succeeds (for Track10, clear of the
   * border); otherwise the re-detected box, which also restarts the tracker; otherwise
   * nothing, the frame being written as searching.
   */
  lemma PassOutcome(sc: Script, s: State, t: Tick)
    requires sc != Tacker10i && s.running
    ensures var r := Step(sc, s, t);
      var last := r.shown[|r.shown| - 1];
      |r.shown| == |s.shown| + 1 && r.shown[..|s.shown|] == s.shown
      && (Accepts(sc, t.reply) ==> last == Some(t.reply.box) && r.inits == s.inits)
      && (!Accepts(sc, t.reply) && Detect(sc, t.frame).Some? ==>
            last == Detect(sc, t.frame) && r.inits == s.inits + [last.value])
      && (last.None? <==> !Accepts(sc, t.reply) && Detect(sc, t.frame).None?)
      && (last.None? ==> r.inits == s.inits)
      && (r.running <==> t.key != 'q')
  {
    var r := Step(sc, s, t);
    assert r.shown[..|s.shown|] == s.shown;
  }

  /** Track10: a tracker box that reaches into the border is dropped and the frame re-detected. */
  lemma Track10DriftIsFailure(s: State, t: Tick)
    requires s.running && t.reply.ok && !InsideBorder(t.reply.box, 100)
    ensures var r := Step(Track10, s, t);
      r.shown[|r.shown| - 1] == FindObjectBboxInBorder(t.frame.contours)
  {
  }

  /** The frame-difference scripts keep every pass's frame as the next `previous_frame`. */
  lemma PreviousIsLastFrame(sc: Script, s: State, t: Tick)
    requires sc != Tacker10i && s.running
    ensures Step(sc, s, t).previous == if DiffersFrames(sc) then t.id else s.previous
  {
  }

  /** The Track scripts start only on a detected box and raise otherwise; Tacker10f never refuses. */
  lemma StartupRule(sc: Script, f: Frame)
    requires !DiffersFrames(sc)
    ensures StartFromFirstFrame(sc, f).Started? <==> Detect(sc, f).Some?
    ensures StartFromFirstFrame(sc, f).NoObject? <==> Detect(sc, f).None? && sc != Tacker10f
    ensures StartFromFirstFrame(sc, f).Started? ==> StartFromFirstFrame(sc, f).state.inits == [Detect(sc, f).value]
  {
  }
}
