/**
 * Retrack8.py: a module-level loop that captures one background, starts a KCF tracker on
 * the largest moving contour outside the edge bands, and logs the zone of the tracked box
 * inside the hexagon. A tracker failure ends tracking only after 2 s without a good
 * update. Pausing only stops the writes; resuming closes the pair and opens the next
 * session's, while the frame numbering runs on.
 */
module Retrack8 {
  import opened Wrappers
  import opened Geometry
  import opened Detectors
  import opened Sinks
  import opened Sessions

  const HEX_RADIUS: int := 225
  const CENTER_RADIUS: int := 100
  const NO_TRACK_ZONE_WIDTH: int := 50
  const LOSS_TIMEOUT: real := 2.0
  const HEADER: seq<string> := ["Frame", "Timestamp", "Piezone", "Centerzone", "Tracking", "FPS"]

  /** A data row, without its timestamp and its measured fps. */
  datatype Row = Row(frame: nat, piezone: int, centerzone: bool, tracking: bool)

  /** One pass: the contours against the background, the tracker's reply, the clock, the key. */
  datatype Tick = Tick(contours: seq<Contour>, reply: Reply, now: real, key: char)

  datatype State = State(
    hasBackground: bool,          // `'background' in locals()`
    tracking: bool,
    paused: bool,
    lastMoveTime: real,
    frameCount: nat,
    session: nat,
    files: Recording<Row>,
    running: bool)

  /** `in_no_track_zone(x)` */
  predicate InNoTrack(x: int) {
    InNoTrackZone(x, NO_TRACK_ZONE_WIDTH, WIDTH)
  }

  /** The edge bands are x < 50 and x > 590; 50 and 590 themselves may be tracked. */
  lemma NoTrackBands(x: int)
    ensures InNoTrack(x) <==> x < 50 || x > 590
  {
  }

  // ---------------------------------------------------------------------------------
  // One pass

  /** Not tracking: start the tracker on the detected box, if any, and restart the clock. */
  function Acquire(s: State, cs: seq<Contour>, now: real): State {
    if Retrack8Detect(cs).Some? then s.(tracking := true, lastMoveTime := now) else s
  }

  /**
   * A good box whose centre is outside the edge bands sets the zones: the sector within
   * the hexagon radius 225 (0 beyond it) and the centre disc of radius 100, both inclusive.
   */
  function BoxZones(b: Box): (int, bool) {
    var p := Centre(b);
    if InNoTrack(p.x) then (0, false)
    else (if InCenter(p.x, p.y, HEX_RADIUS) then DeterminePiezone(p.x, p.y) else 0, InCenter(p.x, p.y, CENTER_RADIUS))
  }

  /** Tracking: a good box outside the bands restarts the clock; a failure after 2 s ends tracking. */
  function Follow(s: State, reply: Reply, now: real): State {
    if reply.ok then
      if InNoTrack(Centre(reply.box).x) then s else s.(lastMoveTime := now)
    else if now - s.lastMoveTime > LOSS_TIMEOUT then s.(tracking := false)
    else s
  }

  /** The zones the pass logs; 0 and False unless a good box was tracked. */
  function PassZones(s: State, t: Tick): (int, bool) {
    if s.tracking && t.reply.ok then BoxZones(t.reply.box) else (0, false)
  }

  /** Unless paused: one frame and one row, numbered with `frame_count`, which then goes up. */
  function Write(s: State, piezone: int, centerzone: bool): State {
    if s.paused then s
    else
      var row := Row(s.frameCount, piezone, centerzone, s.tracking);
      s.(files := PutRow(PutFrame(s.files, s.frameCount), row), frameCount := s.frameCount + 1)
  }

  /** Acquire or follow, then write. */
  function Advance(s: State, t: Tick): State {
    var (z, c) := PassZones(s, t);
    var s1 := if s.tracking then Follow(s, t.reply, t.now) else Acquire(s, t.contours, t.now);
    Write(s1, z, c)
  }

  /** 'c' releases and closes the current pair, then `create_output_files()` for the next session. */
  function HandleKey(cfg: Config, s: State, key: char): State {
    if key == 'q' then s.(running := false)
    else if key == 'm' then s.(paused := true)
    else if key == 'c' && s.paused then
      var n := s.session + 1;
      s.(paused := false, session := n,
         files := Reopen(s.files, SessionVideo(BARE, cfg, n), SessionLog(BARE, cfg, n), HEADER))
    else s
  }

  /** The first pass without tracking stores the background and goes straight to the next pass. */
  function Step(cfg: Config, s: State, t: Tick): State {
    if !s.running then s
    else if !s.tracking && !s.hasBackground then s.(hasBackground := true)
    else HandleKey(cfg, Advance(s, t), t.key)
  }

  function Run(cfg: Config, s: State, ticks: seq<Tick>): State {
    if |ticks| == 0 then s else Step(cfg, Run(cfg, s, ticks[..|ticks| - 1]), ticks[|ticks| - 1])
  }

  /** After the space bar: session 1's files open with the header. */
  function Init(cfg: Config, start: real): State {
    State(false, false, false, start, 0, 1, Opened(SessionVideo(BARE, cfg, 1), SessionLog(BARE, cfg, 1), HEADER), true)
  }

  lemma RunOneMore(cfg: Config, s: State, ticks: seq<Tick>, i: nat)
    requires i < |ticks|
    ensures Run(cfg, s, ticks[..i + 1]) == Step(cfg, Run(cfg, s, ticks[..i]), ticks[i])
  {
    assert ticks[..i + 1][..i] == ticks[..i];
  }

  lemma {:induction false} RunAfterQuit(cfg: Config, s: State, ticks: seq<Tick>, i: nat)
    requires i <= |ticks| && !Run(cfg, s, ticks[..i]).running
    ensures Run(cfg, s, ticks) == Run(cfg, s, ticks[..i])
    decreases |ticks| - i
  {
    if i < |ticks| {
      assert ticks[..i + 1][..i] == ticks[..i];
      RunAfterQuit(cfg, s, ticks, i + 1);
    } else {
      assert ticks[..i] == ticks;
    }
  }

  // ---------------------------------------------------------------------------------
  // Invariants

  function RowFrames(rows: seq<Row>): (fs: seq<nat>)
    ensures |fs| == |rows|
  {
    seq(|rows|, i requires 0 <= i < |rows| => rows[i].frame)
  }

  predicate AllLess(xs: seq<nat>, bound: nat) {
    forall i :: 0 <= i < |xs| ==> xs[i] < bound
  }

  lemma IncreasingPush(xs: seq<nat>, n: nat)
    requires StrictlyIncreasing(xs) && AllLess(xs, n)
    ensures StrictlyIncreasing(xs + [n]) && AllLess(xs + [n], n + 1)
  {
  }

  /** A row's zones: 0..6, the centre only with a zone, and both cleared when not tracking. */
  predicate RowInRange(r: Row) {
    0 <= r.piezone <= 6 && (r.centerzone ==> r.piezone >= 1) && (!r.tracking ==> r.piezone == 0 && !r.centerzone)
  }

  predicate NumberedInOrder(s: State) {
    var rf := RowFrames(Rows(s.files));
    StrictlyIncreasing(rf) && AllLess(rf, s.frameCount)
    && StrictlyIncreasing(Frames(s.files)) && AllLess(Frames(s.files), s.frameCount)
  }

  predicate Valid(cfg: Config, s: State) {
    s.files.video.Some? && s.files.log.Some? && (s.tracking ==> s.hasBackground)
    && NumberedInOrder(s)
    && (forall i :: 0 <= i < |Rows(s.files)| ==> RowInRange(Rows(s.files)[i]))
    && NamedSessions(BARE, cfg, s.files, s.session, HEADER, HEADER)
  }

  lemma InitValid(cfg: Config, start: real)
    ensures Valid(cfg, Init(cfg, start))
  {
    OpenedEffect<Row>(SessionVideo(BARE, cfg, 1), SessionLog(BARE, cfg, 1), HEADER);
  }

  /** The centre disc lies inside the hexagon radius, so a centre hit always has a zone. */
  lemma PassZonesInRange(s: State, t: Tick)
    ensures var (z, c) := PassZones(s, t);
      RowInRange(Row(0, z, c, true)) && (!s.tracking ==> z == 0 && !c)
  {
    if s.tracking && t.reply.ok {
      var p := Centre(t.reply.box);
      if InCenter(p.x, p.y, CENTER_RADIUS) {
        InCenterMonotone(p.x, p.y, CENTER_RADIUS, HEX_RADIUS);
      }
    }
  }

  /** Appending one row and one frame numbered with the current count keeps the numbering. */
  lemma WriteKeepsNumbering(s: State, r: State, row: Row)
    requires NumberedInOrder(s) && row.frame == s.frameCount && r.frameCount == s.frameCount + 1
    requires Rows(r.files) == Rows(s.files) + [row] && Frames(r.files) == Frames(s.files) + [s.frameCount]
    ensures NumberedInOrder(r)
  {
    assert RowFrames(Rows(r.files)) == RowFrames(Rows(s.files)) + [s.frameCount];
    IncreasingPush(RowFrames(Rows(s.files)), s.frameCount);
    IncreasingPush(Frames(s.files), s.frameCount);
  }

  lemma WriteKeepsInvariants(cfg: Config, s: State, z: int, c: bool)
    requires Valid(cfg, s) && RowInRange(Row(0, z, c, s.tracking))
    ensures Valid(cfg, Write(s, z, c))
  {
    if !s.paused {
      var row := Row(s.frameCount, z, c, s.tracking);
      var f := PutFrame(s.files, s.frameCount);
      var r := Write(s, z, c);
      assert r.files == PutRow(f, row) && r.frameCount == s.frameCount + 1 && r.session == s.session;
      PutFrameEffect(s.files, s.frameCount);
      PutRowEffect(f, row);
      WriteKeepsNumbering(s, r, row);
      assert RowInRange(row);
    }
  }

  lemma AdvanceKeepsInvariants(cfg: Config, s: State, t: Tick)
    requires Valid(cfg, s) && (s.tracking || s.hasBackground)
    ensures Valid(cfg, Advance(s, t))
  {
    PassZonesInRange(s, t);
    var s1 := if s.tracking then Follow(s, t.reply, t.now) else Acquire(s, t.contours, t.now);
    assert s1.files == s.files && s1.frameCount == s.frameCount && s1.session == s.session && s1.hasBackground;
    WriteKeepsInvariants(cfg, s1, PassZones(s, t).0, PassZones(s, t).1);
  }

  lemma ResumeKeepsInvariants(cfg: Config, s: State)
    requires Valid(cfg, s) && s.paused
    ensures Valid(cfg, HandleKey(cfg, s, 'c'))
  {
    var n := s.session + 1;
    ReopenEffect(s.files, SessionVideo(BARE, cfg, n), SessionLog(BARE, cfg, n), HEADER);
    SessionNamesGrow(BARE, cfg, s.session, HEADER, HEADER);
  }

  lemma HandleKeyKeepsInvariants(cfg: Config, s: State, key: char)
    requires Valid(cfg, s)
    ensures Valid(cfg, HandleKey(cfg, s, key))
  {
    if key != 'q' && key != 'm' && key == 'c' && s.paused {
      ResumeKeepsInvariants(cfg, s);
    }
  }

  lemma StepKeepsInvariants(cfg: Config, s: State, t: Tick)
    requires Valid(cfg, s)
    ensures Valid(cfg, Step(cfg, s, t))
  {
    if s.running && (s.tracking || s.hasBackground) {
      AdvanceKeepsInvariants(cfg, s, t);
      HandleKeyKeepsInvariants(cfg, Advance(s, t), t.key);
    }
  }

  lemma {:induction false} RunKeepsInvariants(cfg: Config, start: real, ticks: seq<Tick>)
    ensures Valid(cfg, Run(cfg, Init(cfg, start), ticks))
  {
    if |ticks| == 0 {
      InitValid(cfg, start);
    } else {
      RunKeepsInvariants(cfg, start, ticks[..|ticks| - 1]);
      StepKeepsInvariants(cfg, Run(cfg, Init(cfg, start), ticks[..|ticks| - 1]), ticks[|ticks| - 1]);
    }
  }

  // ---------------------------------------------------------------------------------
  // Behaviour

  /**
   * Over a whole run, frame numbers strictly increase across sessions (they are never
   * reset), and every row's zones are in range and cleared whenever not tracking.
   */
  lemma RunRowsInOrder(cfg: Config, start: real, ticks: seq<Tick>)
    ensures var s := Run(cfg, Init(cfg, start), ticks);
      StrictlyIncreasing(RowFrames(Rows(s.files))) && StrictlyIncreasing(Frames(s.files))
      && (forall i :: 0 <= i < |Rows(s.files)| ==> RowInRange(Rows(s.files)[i]))
  {
    RunKeepsInvariants(cfg, start, ticks);
  }

  /** The background is captured once: the pass that takes it writes nothing and reads no key, and it is never dropped. */
  lemma BackgroundCapturedOnce(cfg: Config, s: State, t: Tick)
    requires s.running && (s.tracking ==> s.hasBackground)
    ensures var r := Step(cfg, s, t);
      r.hasBackground
      && (!s.hasBackground && !s.tracking ==> r.files == s.files && r.frameCount == s.frameCount && r.running)
  {
  }

  /** Not tracking: the tracker starts exactly when the detector gives a box, and the clock restarts then. */
  lemma AcquireOnDetection(s: State, t: Tick)
    requires !s.tracking
    ensures var r := if s.tracking then Follow(s, t.reply, t.now) else Acquire(s, t.contours, t.now);
      r.tracking == Retrack8Detect(t.contours).Some?
      && (r.tracking ==> r.lastMoveTime == t.now)
      && PassZones(s, t) == (0, false)
  {
  }

  /**
   * A good update outside the bands logs the sector when within 225 pixels (else 0) and the
   * inclusive centre test, and restarts the clock; inside a band it logs 0 and False and
   * leaves the clock alone.
   */
  lemma GoodUpdateZones(s: State, t: Tick)
    requires s.tracking && t.reply.ok
    ensures var p := Centre(t.reply.box);
      var r := Follow(s, t.reply, t.now);
      (!InNoTrack(p.x) ==>
         PassZones(s, t) == (if InCenter(p.x, p.y, HEX_RADIUS) then DeterminePiezone(p.x, p.y) else 0, InCenter(p.x, p.y, CENTER_RADIUS))
         && r.lastMoveTime == t.now)
      && (InNoTrack(p.x) ==> PassZones(s, t) == (0, false) && r.lastMoveTime == s.lastMoveTime)
      && r.tracking
  {
  }

  /** A failed update ends tracking only when the last good one is more than 2 s old. */
  lemma FailureWaitsForTimeout(s: State, t: Tick)
    requires s.tracking && !t.reply.ok
    ensures Follow(s, t.reply, t.now).tracking <==> t.now - s.lastMoveTime <= LOSS_TIMEOUT
    ensures Follow(s, t.reply, t.now).lastMoveTime == s.lastMoveTime
    ensures PassZones(s, t) == (0, false)
  {
  }

  /** Keys other than a resume while paused leave the files and the count alone. */
  lemma KeyKeepsFiles(cfg: Config, s: State, key: char)
    requires !(key == 'c' && s.paused)
    ensures HandleKey(cfg, s, key).files == s.files && HandleKey(cfg, s, key).frameCount == s.frameCount
  {
  }

  /** While paused nothing is written and `frame_count` stands still; pausing closes nothing. */
  lemma PausedPassWritesNothing(cfg: Config, s: State, t: Tick)
    requires s.running && (s.tracking || s.hasBackground) && s.paused && t.key != 'c'
    ensures var r := Step(cfg, s, t); r.files == s.files && r.frameCount == s.frameCount
  {
    KeyKeepsFiles(cfg, Advance(s, t), t.key);
  }

  /**
   * Resuming closes the current pair and opens session n+1's, empty; `frame_count` runs on,
   * so the new session's first row continues the old numbering.
   */
  lemma ResumeOpensNextPair(cfg: Config, s: State, t: Tick)
    requires s.running && (s.tracking || s.hasBackground) && s.paused && t.key == 'c'
    ensures var r := Step(cfg, s, t);
      var n := s.session + 1;
      r.session == n && !r.paused && r.frameCount == s.frameCount
      && Videos(r.files) == Videos(s.files) + [VideoFile(SessionVideo(BARE, cfg, n), [])]
      && Logs(r.files) == Logs(s.files) + [LogFile(SessionLog(BARE, cfg, n), HEADER, [])]
  {
    var n := s.session + 1;
    assert Advance(s, t).files == s.files && Advance(s, t).frameCount == s.frameCount;
    ReopenEffect(s.files, SessionVideo(BARE, cfg, n), SessionLog(BARE, cfg, n), HEADER);
  }

  /** No two files of a run share a name. */
  lemma FilesNeverShareNames(cfg: Config, start: real, ticks: seq<Tick>)
    ensures var f := Run(cfg, Init(cfg, start), ticks).files;
      var ls, vs := Logs(f), Videos(f);
      (forall i, j :: 0 <= i < j < |ls| ==> ls[i].name != ls[j].name)
      && (forall i, j :: 0 <= i < j < |vs| ==> vs[i].name != vs[j].name)
      && (forall i, j :: 0 <= i < |ls| && 0 <= j < |vs| ==> ls[i].name != vs[j].name)
  {
    var s := Run(cfg, Init(cfg, start), ticks);
    RunKeepsInvariants(cfg, start, ticks);
    NamingsSeparable();
    NamedSessionsDistinct(BARE, cfg, s.files, s.session, HEADER, HEADER);
  }

  // ---------------------------------------------------------------------------------
  // The loop as the script runs it

  class Recorder {
    var hasBackground: bool
    var tracking: bool
    var paused: bool
    var lastMoveTime: real
    var frameCount: nat
    var session: nat
    var files: Recording<Row>
    var running: bool

    function Snapshot(): State
      reads this
    {
      State(hasBackground, tracking, paused, lastMoveTime, frameCount, session, files, running)
    }

    constructor (cfg: Config, start: real)
      ensures Snapshot() == Init(cfg, start)
    {
      hasBackground, tracking, paused, lastMoveTime := false, false, false, start;
      frameCount, session := 0, 1;
      files := Opened(SessionVideo(BARE, cfg, 1), SessionLog(BARE, cfg, 1), HEADER);
      running := true;
    }

    method TryAcquire(cs: seq<Contour>, now: real)
      modifies this
      ensures Snapshot() == Acquire(old(Snapshot()), cs, now)
    {
      if |cs| > 0 {
        var box := Retrack8Detect(cs);
        if box.Some? {
          tracking := true;
          lastMoveTime := now;
        }
      }
    }

    /** The tracker update; returns the zones the pass logs. */
    method Update(reply: Reply, now: real) returns (piezone: int, centerzone: bool)
      requires tracking
      modifies this
      ensures Snapshot() == Follow(old(Snapshot()), reply, now)
      ensures (piezone, centerzone) == PassZones(old(Snapshot()), Tick([], reply, now, ' '))
    {
      piezone, centerzone := 0, false;
      if reply.ok {
        var c := Centre(reply.box);
        if !InNoTrack(c.x) {
          var dx, dy := c.x - WIDTH / 2, c.y - HEIGHT / 2;
          var d2 := dx * dx + dy * dy;
          piezone := if d2 <= HEX_RADIUS * HEX_RADIUS then DeterminePiezone(c.x, c.y) else 0;
          centerzone := d2 <= CENTER_RADIUS * CENTER_RADIUS;
          lastMoveTime := now;
        }
      } else if now - lastMoveTime > LOSS_TIMEOUT {
        tracking := false;
      }
    }

    method WriteOut(piezone: int, centerzone: bool)
      modifies this
      ensures Snapshot() == Write(old(Snapshot()), piezone, centerzone)
    {
      if !paused {
        files := PutFrame(files, frameCount);
        files := PutRow(files, Row(frameCount, piezone, centerzone, tracking));
        frameCount := frameCount + 1;
      }
    }

    method HandleKeyPress(cfg: Config, key: char)
      modifies this
      ensures Snapshot() == HandleKey(cfg, old(Snapshot()), key)
    {
      if key == 'q' {
        running := false;
      } else if key == 'm' {
        paused := true;
      } else if key == 'c' && paused {
        paused := false;
        session := session + 1;
        files := Reopen(files, SessionVideo(BARE, cfg, session), SessionLog(BARE, cfg, session), HEADER);
      }
    }

    /** One pass of the `while True` loop. */
    method RunTick(cfg: Config, t: Tick)
      requires running
      modifies this
      ensures Snapshot() == Step(cfg, old(Snapshot()), t)
    {
      if !tracking {
        if !hasBackground {
          hasBackground := true;
          return;
        }
        TryAcquire(t.contours, t.now);
        WriteOut(0, false);
      } else {
        var piezone, centerzone := Update(t.reply, t.now);
        WriteOut(piezone, centerzone);
      }
      HandleKeyPress(cfg, t.key);
    }

    method Teardown()
      modifies this
      ensures Snapshot() == old(Snapshot()).(files := CloseAll(old(files)))
    {
      files := CloseAll(files);
    }
  }

  /** The script after the space bar: passes until 'q', then the open pair is closed. */
  method MainLoop(cfg: Config, start: real, ticks: seq<Tick>) returns (final: State)
    ensures var r := Run(cfg, Init(cfg, start), ticks);
      final == if r.running then r else r.(files := CloseAll(r.files))
  {
    var rec := new Recorder(cfg, start);
    assert ticks[..0] == [];
    var i := 0;
    while i < |ticks| && rec.running
      invariant 0 <= i <= |ticks|
      invariant rec.Snapshot() == Run(cfg, Init(cfg, start), ticks[..i])
    {
      RunOneMore(cfg, Init(cfg, start), ticks, i);
      rec.RunTick(cfg, ticks[i]);
      i := i + 1;
    }
    if !rec.running {
      RunAfterQuit(cfg, Init(cfg, start), ticks, i);
      rec.Teardown();
    } else {
      assert ticks[..i] == ticks;
    }
    final := rec.Snapshot();
  }
}
