/**
 * Retrack9.py: a module-level loop that takes a fresh background whenever tracking is
 * off, then follows the first acceptable motion contour against it, logging the zone of
 * each frame. Pausing only stops the writes; resuming rebinds the writer and the log to
 * the next session's files and restarts the frame numbering at 0.
 */
module Retrack9 {
  import opened Wrappers
  import opened Geometry
  import opened Detectors
  import opened Sinks
  import opened Sessions

  const MOVEMENT_THRESHOLD: int := 5
  const TRACKING_LOST_TIME: real := 2.0
  const CENTER_RADIUS: int := 100
  const FPS: int := 24
  const HEADER: seq<string> := ["Frame", "Timestamp", "Piezone", "Centerzone", "Tracking", "FPS"]

  /** A data row, without its wall-clock timestamp; the FPS column is the constant `fps`. */
  datatype Row = Row(frame: nat, piezone: int, centerzone: int, tracking: bool, fps: int)

  /** One pass of the loop: the contours against the background, the clock, the key. */
  datatype Tick = Tick(contours: seq<Contour>, now: real, key: char)

  datatype State = State(
    tracking: bool,               // false: the next pass stores the background
    paused: bool,
    lastPosition: Option<Point>,
    lastMoveTime: real,
    frameCount: nat,
    session: nat,
    files: Recording<Row>,
    running: bool)

  // ---------------------------------------------------------------------------------
  // Zones

  /**
   * `1 + int((atan2(dy, dx) + pi) / (pi/3)) % 6`: adding half a turn to the angle makes
   * this the sector of the point opposite (dx, dy); the centre, at angle 0, gets 1 + 3.
   */
  function HalfTurnPiezone(cx: int, cy: int): (zone: int)
    ensures 1 <= zone <= 6
  {
    var dx, dy := cx - WIDTH / 2, cy - HEIGHT / 2;
    if dx == 0 && dy == 0 then 4 else Sector(-dx, -dy)
  }

  /**
   * The zone numbering is three sectors on from `determine_piezone`'s, so this script
   * and Retrack15 never give one position the same zone.
   */
  lemma HalfTurnPiezoneShift(cx: int, cy: int)
    ensures HalfTurnPiezone(cx, cy) == (DeterminePiezone(cx, cy) + 2) % 6 + 1
    ensures HalfTurnPiezone(cx, cy) != DeterminePiezone(cx, cy)
  {
    var dx, dy := cx - WIDTH / 2, cy - HEIGHT / 2;
    if dx != 0 || dy != 0 {
      SectorHalfTurn(dx, dy);
    }
  }

  /** `norm(position - centre) < center_radius`, on squares: the circle itself is outside. */
  predicate InCenterStrict(cx: int, cy: int) {
    var dx, dy := cx - WIDTH / 2, cy - HEIGHT / 2;
    dx * dx + dy * dy < CENTER_RADIUS * CENTER_RADIUS
  }

  /** Unlike `in_center`, the strict test leaves out the circle of radius 100 itself. */
  lemma InCenterStrictBoundary(cx: int, cy: int)
    ensures var dx, dy := cx - WIDTH / 2, cy - HEIGHT / 2;
      InCenterStrict(cx, cy) <==> InCenter(cx, cy, CENTER_RADIUS) && dx * dx + dy * dy != CENTER_RADIUS * CENTER_RADIUS
    ensures InCenter(WIDTH / 2 + CENTER_RADIUS, HEIGHT / 2, CENTER_RADIUS)
            && !InCenterStrict(WIDTH / 2 + CENTER_RADIUS, HEIGHT / 2)
  {
  }

  function Dist2(p: Point, q: Point): int {
    (p.x - q.x) * (p.x - q.x) + (p.y - q.y) * (p.y - q.y)
  }

  // ---------------------------------------------------------------------------------
  // One pass

  /**
   * The `if object_found` branch before the zones: a move of less than 5 pixels for more
   * than 2 s turns tracking off, a larger move restarts the clock, and the position is kept.
   */
  function Observe(s: State, p: Point, now: real): State {
    var s1 :=
      match s.lastPosition
      case None => s
      case Some(q) =>
        if Dist2(p, q) < MOVEMENT_THRESHOLD * MOVEMENT_THRESHOLD then
          if now - s.lastMoveTime > TRACKING_LOST_TIME then s.(tracking := false) else s
        else s.(lastMoveTime := now);
    s1.(lastPosition := Some(p))
  }

  function Track(s: State, found: Option<Point>, now: real): State {
    match found
    case None => s
    case Some(p) => Observe(s, p, now)
  }

  /** `piezone` and `centerzone` as the row logs them. */
  function Zones(found: Option<Point>): (int, int) {
    match found
    case None => (0, 0)
    case Some(p) => (HalfTurnPiezone(p.x, p.y), if InCenterStrict(p.x, p.y) then 1 else 0)
  }

  /** Unless paused: one frame and one row, numbered with `frame_count`, which then goes up. */
  function Write(s: State, piezone: int, centerzone: int): State {
    if s.paused then s
    else
      var row := Row(s.frameCount, piezone, centerzone, s.tracking, FPS);
      s.(files := PutRow(PutFrame(s.files, s.frameCount), row), frameCount := s.frameCount + 1)
  }

  /** Detection, zones and the writes of a pass with a background. */
  function Advance(s: State, t: Tick): State {
    var found := Detected(t.contours);
    var (z, c) := Zones(found);
    Write(Track(s, found, t.now), z, c)
  }

  function HandleKey(cfg: Config, s: State, key: char): State {
    if key == 'q' then s.(running := false)
    else if key == 'm' then s.(paused := true)
    else if key == 'c' && s.paused then
      var n := s.session + 1;
      s.(paused := false, session := n, frameCount := 0,
         files := Reopen(s.files, SessionVideo(BARE, cfg, n), SessionLog(BARE, cfg, n), HEADER))
    else s
  }

  /** A pass without tracking only stores the background; the key is not read. */
  function Step(cfg: Config, s: State, t: Tick): State {
    if !s.running then s
    else if !s.tracking then s.(tracking := true)
    else HandleKey(cfg, Advance(s, t), t.key)
  }

  function Run(cfg: Config, s: State, ticks: seq<Tick>): State {
    if |ticks| == 0 then s else Step(cfg, Run(cfg, s, ticks[..|ticks| - 1]), ticks[|ticks| - 1])
  }

  /** After the space bar: session 1's files open with the header, tracking off. */
  function Init(cfg: Config, start: real): State {
    State(false, false, None, start, 0, 1, Opened(SessionVideo(BARE, cfg, 1), SessionLog(BARE, cfg, 1), HEADER), true)
  }

  lemma RunOneMore(cfg: Config, s: State, ticks: seq<Tick>, i: nat)
    requires i < |ticks|
    ensures Run(cfg, s, ticks[..i + 1]) == Step(cfg, Run(cfg, s, ticks[..i]), ticks[i])
  {
    assert ticks[..i + 1][..i] == ticks[..i];
  }

  lemma {:induction false} RunAfterQuit(cfg: Config, s: State, ticks: seq<Tick>, i: nat)
    requires i <= |ticks| && !Run(cfg, s, ticks[..i]).running
    ensures Run(cfg, s, ticks) == Run(cfg, s, ticks[..i])
    decreases |ticks| - i
  {
    if i < |ticks| {
      assert ticks[..i + 1][..i] == ticks[..i];
      RunAfterQuit(cfg, s, ticks, i + 1);
    } else {
      assert ticks[..i] == ticks;
    }
  }

  // ---------------------------------------------------------------------------------
  // Invariants

  function RowFrames(rows: seq<Row>): (fs: seq<nat>)
    ensures |fs| == |rows|
  {
    seq(|rows|, i requires 0 <= i < |rows| => rows[i].frame)
  }

  /** The numbers 0, 1, 2, ... in order. */
  predicate CountsUp(xs: seq<nat>) {
    forall i :: 0 <= i < |xs| ==> xs[i] == i
  }

  /** What a row can hold: zone 0..6, centre flag 0 or 1 and set only with a zone, FPS 24. */
  predicate RowInRange(r: Row) {
    0 <= r.piezone <= 6 && 0 <= r.centerzone <= 1 && (r.centerzone == 1 ==> r.piezone >= 1) && r.fps == FPS
  }

  /**
   * The writer and the log are always open; each file numbers its frames and rows 0, 1, 2,
   * ...; the open pair holds `frame_count` frames and rows.
   */
  predicate SessionNumbering(s: State) {
    s.files.video.Some? && s.files.log.Some?
    && |s.files.video.value.frames| == s.frameCount && |s.files.log.value.rows| == s.frameCount
    && CountsUp(s.files.video.value.frames) && CountsUp(RowFrames(s.files.log.value.rows))
    && (forall k :: 0 <= k < |s.files.savedVideos| ==> CountsUp(s.files.savedVideos[k].frames))
    && (forall k :: 0 <= k < |s.files.savedLogs| ==> CountsUp(RowFrames(s.files.savedLogs[k].rows)))
  }

  predicate Valid(cfg: Config, s: State) {
    SessionNumbering(s)
    && (forall i :: 0 <= i < |Rows(s.files)| ==> RowInRange(Rows(s.files)[i]))
    && NamedSessions(BARE, cfg, s.files, s.session, HEADER, HEADER)
  }

  lemma InitValid(cfg: Config, start: real)
    ensures Valid(cfg, Init(cfg, start))
  {
    OpenedEffect<Row>(SessionVideo(BARE, cfg, 1), SessionLog(BARE, cfg, 1), HEADER);
  }

  lemma ZonesInRange(found: Option<Point>)
    ensures var (z, c) := Zones(found); RowInRange(Row(0, z, c, false, FPS))
  {
  }

  lemma WriteKeepsInvariants(cfg: Config, s: State, z: int, c: int)
    requires Valid(cfg, s) && RowInRange(Row(0, z, c, false, FPS))
    ensures Valid(cfg, Write(s, z, c))
  {
    if !s.paused {
      var row := Row(s.frameCount, z, c, s.tracking, FPS);
      var f := PutFrame(s.files, s.frameCount);
      PutFrameEffect(s.files, s.frameCount);
      PutRowEffect(f, row);
      var w := Write(s, z, c);
      assert w.files.video.value.frames == s.files.video.value.frames + [s.frameCount];
      assert RowFrames(w.files.log.value.rows) == RowFrames(s.files.log.value.rows) + [s.frameCount];
    }
  }

  lemma AdvanceKeepsInvariants(cfg: Config, s: State, t: Tick)
    requires Valid(cfg, s)
    ensures Valid(cfg, Advance(s, t))
  {
    var found := Detected(t.contours);
    ZonesInRange(found);
    var s1 := Track(s, found, t.now);
    assert s1.files == s.files && s1.frameCount == s.frameCount && s1.session == s.session;
    WriteKeepsInvariants(cfg, s1, Zones(found).0, Zones(found).1);
  }

  /** The resume key's new files: the open pair joins the saved ones and numbering restarts. */
  lemma ResumeKeepsNumbering(cfg: Config, s: State)
    requires SessionNumbering(s) && s.paused
    ensures SessionNumbering(HandleKey(cfg, s, 'c'))
  {
    var r := HandleKey(cfg, s, 'c').files;
    assert r.savedVideos == s.files.savedVideos + [s.files.video.value];
    assert r.savedLogs == s.files.savedLogs + [s.files.log.value];
    assert RowFrames(r.log.value.rows) == [];
  }

  lemma ResumeKeepsNames(cfg: Config, s: State)
    requires Valid(cfg, s) && s.paused
    ensures NamedSessions(BARE, cfg, HandleKey(cfg, s, 'c').files, s.session + 1, HEADER, HEADER)
    ensures Rows(HandleKey(cfg, s, 'c').files) == Rows(s.files)
  {
    var n := s.session + 1;
    ReopenEffect(s.files, SessionVideo(BARE, cfg, n), SessionLog(BARE, cfg, n), HEADER);
    SessionNamesGrow(BARE, cfg, s.session, HEADER, HEADER);
  }

  lemma HandleKeyKeepsInvariants(cfg: Config, s: State, key: char)
    requires Valid(cfg, s)
    ensures Valid(cfg, HandleKey(cfg, s, key))
  {
    if key != 'q' && key != 'm' && key == 'c' && s.paused {
      ResumeKeepsNumbering(cfg, s);
      ResumeKeepsNames(cfg, s);
    }
  }

  lemma StepKeepsInvariants(cfg: Config, s: State, t: Tick)
    requires Valid(cfg, s)
    ensures Valid(cfg, Step(cfg, s, t))
  {
    if s.running && s.tracking {
      AdvanceKeepsInvariants(cfg, s, t);
      HandleKeyKeepsInvariants(cfg, Advance(s, t), t.key);
    }
  }

  lemma {:induction false} RunKeepsInvariants(cfg: Config, start: real, ticks: seq<Tick>)
    ensures Valid(cfg, Run(cfg, Init(cfg, start), ticks))
  {
    if |ticks| == 0 {
      InitValid(cfg, start);
    } else {
      RunKeepsInvariants(cfg, start, ticks[..|ticks| - 1]);
      StepKeepsInvariants(cfg, Run(cfg, Init(cfg, start), ticks[..|ticks| - 1]), ticks[|ticks| - 1]);
    }
  }

  // ---------------------------------------------------------------------------------
  // Behaviour

  /**
   * In every file of a run, frames and rows are numbered from 0 without gaps: the numbering
   * restarts with each session, and every row's zone, centre flag and FPS are in range.
   */
  lemma EveryFileCountsFromZero(cfg: Config, start: real, ticks: seq<Tick>)
    ensures var f := Run(cfg, Init(cfg, start), ticks).files;
      (forall k :: 0 <= k < |Logs(f)| ==> CountsUp(RowFrames(Logs(f)[k].rows)))
      && (forall k :: 0 <= k < |Videos(f)| ==> CountsUp(Videos(f)[k].frames))
      && (forall i :: 0 <= i < |Rows(f)| ==> RowInRange(Rows(f)[i]))
  {
    RunKeepsInvariants(cfg, start, ticks);
  }

  /** A pass without tracking stores the background and nothing else: no write, and even 'q' is not seen. */
  lemma BackgroundPassIgnoresKey(cfg: Config, s: State, t: Tick)
    requires s.running && !s.tracking
    ensures var r := Step(cfg, s, t);
      r.tracking && r.running && r.files == s.files && r.frameCount == s.frameCount
      && r.paused == s.paused && r.session == s.session && r.lastPosition == s.lastPosition
  {
  }

  /** Keys other than a resume while paused leave the files and the count alone. */
  lemma KeyKeepsFiles(cfg: Config, s: State, key: char)
    requires !(key == 'c' && s.paused)
    ensures HandleKey(cfg, s, key).files == s.files && HandleKey(cfg, s, key).frameCount == s.frameCount
  {
  }

  /**
   * With a contour found, the row carries that position's zones, even on the pass whose
   * stationary timeout turns tracking off: the zeroing in that branch is overwritten.
   */
  lemma FoundPassLogsPosition(cfg: Config, s: State, t: Tick, p: Point)
    requires s.running && s.tracking && !s.paused && s.files.video.Some? && s.files.log.Some?
    requires Detected(t.contours) == Some(p)
    ensures var r := Step(cfg, s, t);
      var z := HalfTurnPiezone(p.x, p.y);
      Rows(r.files) == Rows(s.files) + [Row(s.frameCount, z, if InCenterStrict(p.x, p.y) then 1 else 0,
                                            Observe(s, p, t.now).tracking, FPS)]
      && 1 <= z <= 6 && r.lastPosition == Some(p)
  {
    var s1 := Observe(s, p, t.now);
    var f := PutFrame(s.files, s.frameCount);
    PutFrameEffect(s.files, s.frameCount);
    PutRowEffect(f, Row(s.frameCount, HalfTurnPiezone(p.x, p.y), if InCenterStrict(p.x, p.y) then 1 else 0, s1.tracking, FPS));
    KeyKeepsFiles(cfg, Advance(s, t), if t.key == 'c' then 'x' else t.key);
  }

  /** With nothing found, the row logs zone 0, centre 0, and tracking and the clock are untouched. */
  lemma MissedPassLogsZero(cfg: Config, s: State, t: Tick)
    requires s.running && s.tracking && !s.paused && s.files.video.Some? && s.files.log.Some?
    requires Detected(t.contours).None?
    ensures var r := Step(cfg, s, t);
      Rows(r.files) == Rows(s.files) + [Row(s.frameCount, 0, 0, true, FPS)]
      && r.tracking && r.lastMoveTime == s.lastMoveTime && r.lastPosition == s.lastPosition
  {
    var f := PutFrame(s.files, s.frameCount);
    PutFrameEffect(s.files, s.frameCount);
    PutRowEffect(f, Row(s.frameCount, 0, 0, true, FPS));
  }

  /**
   * The stationary rule: within 5 pixels of the last position and more than 2 s after the
   * last move, tracking goes off, so the next pass takes a new background; a move of 5
   * pixels or more restarts the clock and keeps tracking.
   */
  lemma StationaryRule(s: State, t: Tick, p: Point, q: Point)
    requires s.running && s.tracking && Detected(t.contours) == Some(p) && s.lastPosition == Some(q)
    ensures var r := Track(s, Some(p), t.now);
      (Dist2(p, q) < 25 && t.now - s.lastMoveTime > 2.0 ==> !r.tracking && r.lastMoveTime == s.lastMoveTime)
      && (Dist2(p, q) < 25 && t.now - s.lastMoveTime <= 2.0 ==> r.tracking && r.lastMoveTime == s.lastMoveTime)
      && (Dist2(p, q) >= 25 ==> r.tracking && r.lastMoveTime == t.now)
      && r.lastPosition == Some(p)
  {
  }

  /** While paused nothing is written and `frame_count` stands still. */
  lemma PausedPassWritesNothing(cfg: Config, s: State, t: Tick)
    requires s.running && s.tracking && s.paused && t.key != 'c'
    ensures var r := Step(cfg, s, t); r.files == s.files && r.frameCount == s.frameCount
  {
  }

  /** Pausing closes nothing: the writer and the log stay open, only the writes stop. */
  lemma PauseClosesNothing(cfg: Config, s: State, t: Tick)
    requires s.running && s.tracking && t.key == 'm'
    ensures var r := Step(cfg, s, t); r.paused && r.files == Advance(s, t).files
  {
  }

  /**
   * Resuming starts session n+1 with two new, empty files and the numbering back at 0;
   * the old pair, never closed, is kept as written.
   */
  lemma ResumeRestartsNumbering(cfg: Config, s: State, t: Tick)
    requires s.running && s.tracking && s.paused && t.key == 'c'
    ensures var r := Step(cfg, s, t);
      var n := s.session + 1;
      r.session == n && !r.paused && r.frameCount == 0
      && Videos(r.files) == Videos(s.files) + [VideoFile(SessionVideo(BARE, cfg, n), [])]
      && Logs(r.files) == Logs(s.files) + [LogFile(SessionLog(BARE, cfg, n), HEADER, [])]
  {
    var n := s.session + 1;
    var a := Advance(s, t);
    assert a.files == s.files && a.paused && a.session == s.session;
    assert Step(cfg, s, t) == HandleKey(cfg, a, 'c');
    ReopenEffect(s.files, SessionVideo(BARE, cfg, n), SessionLog(BARE, cfg, n), HEADER);
  }

  /** No two files of a run share a name. */
  lemma FilesNeverShareNames(cfg: Config, start: real, ticks: seq<Tick>)
    ensures var f := Run(cfg, Init(cfg, start), ticks).files;
      var ls, vs := Logs(f), Videos(f);
      (forall i, j :: 0 <= i < j < |ls| ==> ls[i].name != ls[j].name)
      && (forall i, j :: 0 <= i < j < |vs| ==> vs[i].name != vs[j].name)
      && (forall i, j :: 0 <= i < |ls| && 0 <= j < |vs| ==> ls[i].name != vs[j].name)
  {
    var s := Run(cfg, Init(cfg, start), ticks);
    RunKeepsInvariants(cfg, start, ticks);
    NamingsSeparable();
    NamedSessionsDistinct(BARE, cfg, s.files, s.session, HEADER, HEADER);
  }

  // ---------------------------------------------------------------------------------
  // The loop as the script runs it

  class Recorder {
    var tracking: bool
    var paused: bool
    var lastPosition: Option<Point>
    var lastMoveTime: real
    var frameCount: nat
    var session: nat
    var files: Recording<Row>
    var running: bool

    function Snapshot(): State
      reads this
    {
      State(tracking, paused, lastPosition, lastMoveTime, frameCount, session, files, running)
    }

    constructor (cfg: Config, start: real)
      ensures Snapshot() == Init(cfg, start)
    {
      tracking, paused, lastPosition, lastMoveTime := false, false, None, start;
      frameCount, session := 0, 1;
      files := Opened(SessionVideo(BARE, cfg, 1), SessionLog(BARE, cfg, 1), HEADER);
      running := true;
    }

    /** The `if object_found` branch's bookkeeping. */
    method UpdatePosition(p: Point, now: real)
      modifies this
      ensures Snapshot() == Observe(old(Snapshot()), p, now)
    {
      if lastPosition.Some? {
        var q := lastPosition.value;
        var dist2 := (p.x - q.x) * (p.x - q.x) + (p.y - q.y) * (p.y - q.y);
        if dist2 < MOVEMENT_THRESHOLD * MOVEMENT_THRESHOLD {
          if now - lastMoveTime > TRACKING_LOST_TIME {
            tracking := false;
          }
        } else {
          lastMoveTime := now;
        }
      }
      lastPosition := Some(p);
    }

    method WriteOut(piezone: int, centerzone: int)
      modifies this
      ensures Snapshot() == Write(old(Snapshot()), piezone, centerzone)
    {
      if !paused {
        files := PutFrame(files, frameCount);
        files := PutRow(files, Row(frameCount, piezone, centerzone, tracking, FPS));
        frameCount := frameCount + 1;
      }
    }

    method HandleKeyPress(cfg: Config, key: char)
      modifies this
      ensures Snapshot() == HandleKey(cfg, old(Snapshot()), key)
    {
      if key == 'q' {
        running := false;
      } else if key == 'm' {
        paused := true;
      } else if key == 'c' && paused {
        paused := false;
        session := session + 1;
        files := Reopen(files, SessionVideo(BARE, cfg, session), SessionLog(BARE, cfg, session), HEADER);
        frameCount := 0;
      }
    }

    /** One pass of the `while True` loop. */
    method RunTick(cfg: Config, t: Tick)
      requires running
      modifies this
      ensures Snapshot() == Step(cfg, old(Snapshot()), t)
    {
      if !tracking {
        tracking := true;
        return;
      }
      var found, position := FindFirstQualifying(t.contours);
      var piezone, centerzone := 0, 0;
      if found {
        UpdatePosition(position, t.now);
        piezone := HalfTurnPiezone(position.x, position.y);
        centerzone := if InCenterStrict(position.x, position.y) then 1 else 0;
      }
      WriteOut(piezone, centerzone);
      HandleKeyPress(cfg, t.key);
    }

    method Teardown()
      modifies this
      ensures Snapshot() == old(Snapshot()).(files := CloseAll(old(files)))
    {
      files := CloseAll(files);
    }
  }

  /** The script after the space bar: passes until 'q', then the open pair is closed. */
  method MainLoop(cfg: Config, start: real, ticks: seq<Tick>) returns (final: State)
    ensures var r := Run(cfg, Init(cfg, start), ticks);
      final == if r.running then r else r.(files := CloseAll(r.files))
  {
    var rec := new Recorder(cfg, start);
    assert ticks[..0] == [];
    var i := 0;
    while i < |ticks| && rec.running
      invariant 0 <= i <= |ticks|
      invariant rec.Snapshot() == Run(cfg, Init(cfg, start), ticks[..i])
    {
      RunOneMore(cfg, Init(cfg, start), ticks, i);
      rec.RunTick(cfg, ticks[i]);
      i := i + 1;
    }
    if !rec.running {
      RunAfterQuit(cfg, Init(cfg, start), ticks, i);
      rec.Teardown();
    } else {
      assert ticks[..i] == ticks;
    }
    final := rec.Snapshot();
  }
}
