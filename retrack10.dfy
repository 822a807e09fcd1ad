/**
 * Retrack10.py: a module-level loop meant to follow the first acceptable motion contour
 * between consecutive frames and log its zone. Its first-pass gate tests `last_position`,
 * which only the detection it skips can set, so as written every pass just writes the
 * frame. `Setup.gateOnLastFrame` selects the gate: false is the script as written, true
 * tests the stored previous frame instead, the evident intent of that branch.
 */
module Retrack10 {
  import opened Wrappers
  import opened Geometry
  import opened Detectors
  import opened Sinks
  import opened Sessions

  const CENTER_RADIUS: int := 100
  const MOVEMENT_TIMEOUT: real := 2.0
  const FRAME_RATE: int := 24
  const HEADER: seq<string> := ["Frame", "Timestamp", "Piezone", "Centerzone", "Tracking", "FPS"]

  /** A data row without its timestamp; the FPS column is the constant `FRAME_RATE`. */
  datatype Row = Row(frame: nat, piezone: int, centerzone: bool, tracking: bool, fps: int)

  /**
   * One pass: the contours between the previous and the current frame, the clock, the
   * wall-clock stamp `datetime.now().strftime("%Y-%m-%d_%H-%M-%S")`, and the key.
   */
  datatype Tick = Tick(contours: seq<Contour>, now: real, stamp: string, key: char)

  datatype Setup = Setup(sample: string, gateOnLastFrame: bool)

  datatype State = State(
    hasLastFrame: bool,
    lastPosition: Option<Point>,
    tracking: bool,
    lastMovementTime: real,
    frameCount: nat,
    paused: bool,
    session: nat,
    files: Recording<Row>,
    running: bool)

  /** After the space bar: session 1's files, named with the start-up stamp, open with the header. */
  function Init(setup: Setup, stamp: string, start: real): State {
    var cfg := Config(stamp, setup.sample);
    State(false, None, false, start, 0, false, 1, Opened(SessionVideo(BARE, cfg, 1), SessionLog(BARE, cfg, 1), HEADER), true)
  }

  // ---------------------------------------------------------------------------------
  // One pass

  /** The first-pass gate: `last_position is None` as written, `last_frame is None` corrected. */
  predicate Gate(setup: Setup, s: State) {
    if setup.gateOnLastFrame then !s.hasLastFrame else s.lastPosition.None?
  }

  /** A find starts tracking there; more than 2 s without one drops tracking and the position. */
  function Detect(s: State, t: Tick): State {
    match Detected(t.contours)
    case Some(p) => s.(tracking := true, lastPosition := Some(p), lastMovementTime := t.now)
    case None =>
      if t.now - s.lastMovementTime > MOVEMENT_TIMEOUT then s.(tracking := false, lastPosition := None) else s
  }

  /** `piezone` and `centerzone`, computed only while tracking. */
  function Zones(s: State): (int, bool) {
    if s.tracking && s.lastPosition.Some? then
      var p := s.lastPosition.value;
      (DeterminePiezone(p.x, p.y), InCenter(p.x, p.y, CENTER_RADIUS))
    else (0, false)
  }

  /** The unguarded writes: a frame (lost once the writer is released) and a row. */
  function Log(s: State): State {
    var (z, c) := Zones(s);
    s.(files := PutRow(PutFrame(s.files, s.frameCount), Row(s.frameCount, if s.tracking then z else 0, c, s.tracking, FRAME_RATE)))
  }

  /** 'm' releases only the writer; 'c' opens a new writer and log without closing the old log. */
  function HandleKey(setup: Setup, s: State, t: Tick): State {
    if t.key == 'q' then s.(running := false)
    else if t.key == 'm' then s.(paused := true, files := ReleaseVideo(s.files))
    else if t.key == 'c' && s.paused then
      var n := s.session + 1;
      var cfg := Config(t.stamp, setup.sample);
      s.(paused := false, session := n,
         files := Reopen(s.files, SessionVideo(BARE, cfg, n), SessionLog(BARE, cfg, n), HEADER))
    else s
  }

  /** At the gate: store the frame as `last_frame`, write it, and start the next pass. */
  function StoreFrame(s: State): State {
    s.(hasLastFrame := true, files := PutFrame(s.files, s.frameCount))
  }

  /** Past the gate: detect, log, read the key, and keep this frame as `last_frame`. */
  function Pass(setup: Setup, s: State, t: Tick): State {
    HandleKey(setup, Log(Detect(s, t)), t).(hasLastFrame := true)
  }

  /** Count the pass, then take the gate or the detecting pass. */
  function Step(setup: Setup, s: State, t: Tick): State {
    if !s.running then s
    else
      var s1 := s.(frameCount := s.frameCount + 1);
      if Gate(setup, s1) then StoreFrame(s1) else Pass(setup, s1, t)
  }

  function Run(setup: Setup, s: State, ticks: seq<Tick>): State {
    if |ticks| == 0 then s else Step(setup, Run(setup, s, ticks[..|ticks| - 1]), ticks[|ticks| - 1])
  }

  lemma RunOneMore(setup: Setup, s: State, ticks: seq<Tick>, i: nat)
    requires i < |ticks|
    ensures Run(setup, s, ticks[..i + 1]) == Step(setup, Run(setup, s, ticks[..i]), ticks[i])
  {
    assert ticks[..i + 1][..i] == ticks[..i];
  }

  lemma {:induction false} RunAfterQuit(setup: Setup, s: State, ticks: seq<Tick>, i: nat)
    requires i <= |ticks| && !Run(setup, s, ticks[..i]).running
    ensures Run(setup, s, ticks) == Run(setup, s, ticks[..i])
    decreases |ticks| - i
  {
    if i < |ticks| {
      assert ticks[..i + 1][..i] == ticks[..i];
      RunAfterQuit(setup, s, ticks, i + 1);
    } else {
      assert ticks[..i] == ticks;
    }
  }

  // ---------------------------------------------------------------------------------
  // As written: the detector never runs

  /** The frames 1..n, as the gate writes them. */
  function Counted(n: nat): (fs: seq<nat>)
    ensures |fs| == n
  {
    seq(n, i requires 0 <= i < n => i + 1)
  }

  /** As written, a state without a position stays without one, and the pass only writes its frame. */
  lemma GateHoldsForever(setup: Setup, s: State, t: Tick)
    requires !setup.gateOnLastFrame && s.running && s.lastPosition.None?
    ensures var r := Step(setup, s, t);
      r.lastPosition.None? && r.running && r.frameCount == s.frameCount + 1
      && r.files == PutFrame(s.files, s.frameCount + 1)
  {
  }

  /**
   * As written, no run ever leaves the gate: it only counts and writes frames 1, 2, ..., n
   * to session 1's video, never logs a row and never reads a key, so not even 'q' ends it.
   */
  lemma {:induction false} AsWrittenNeverLogs(setup: Setup, stamp: string, start: real, ticks: seq<Tick>)
    requires !setup.gateOnLastFrame
    ensures var r := Run(setup, Init(setup, stamp, start), ticks);
      var s0 := Init(setup, stamp, start);
      r.lastPosition.None? && r.running && r.frameCount == |ticks| && !r.paused && r.session == 1
      && r.files == s0.files.(video := Some(s0.files.video.value.(frames := Counted(|ticks|))))
      && Rows(r.files) == []
  {
    var s0 := Init(setup, stamp, start);
    if |ticks| > 0 {
      var n := |ticks| - 1;
      AsWrittenNeverLogs(setup, stamp, start, ticks[..n]);
      var prev := Run(setup, s0, ticks[..n]);
      GateHoldsForever(setup, prev, ticks[n]);
      assert Counted(n) + [n + 1] == Counted(n + 1);
    }
    var r := Run(setup, s0, ticks);
    OpenedEffect<Row>(s0.files.video.value.name, s0.files.log.value.name, HEADER);
    assert Logs(r.files) == Logs(s0.files);
  }

  // ---------------------------------------------------------------------------------
  // The detecting pass, reached only with the corrected gate

  /** More than 2 s without a find drops tracking and the position; a find restarts the clock. */
  lemma DetectRule(s: State, t: Tick)
    ensures var r := Detect(s, t);
      (Detected(t.contours).Some? ==> r.tracking && r.lastPosition == Detected(t.contours) && r.lastMovementTime == t.now)
      && (Detected(t.contours).None? && t.now - s.lastMovementTime > MOVEMENT_TIMEOUT ==> !r.tracking && r.lastPosition.None?)
      && (Detected(t.contours).None? && t.now - s.lastMovementTime <= MOVEMENT_TIMEOUT ==> r == s)
  {
  }

  /**
   * The row of a detecting pass: `determine_piezone`'s sector and the inclusive centre test
   * of the last position while tracking, 0 and False otherwise, FPS 24.
   */
  lemma LoggedRow(s: State)
    requires s.files.log.Some? && (s.tracking ==> s.lastPosition.Some?)
    ensures Rows(Log(s).files) == Rows(s.files) + [
        if s.tracking then
          var p := s.lastPosition.value;
          Row(s.frameCount, DeterminePiezone(p.x, p.y), InCenter(p.x, p.y, CENTER_RADIUS), true, 24)
        else Row(s.frameCount, 0, false, false, 24)]
  {
    var (z, c) := Zones(s);
    PutFrameEffect(s.files, s.frameCount);
    PutRowEffect(PutFrame(s.files, s.frameCount), Row(s.frameCount, if s.tracking then z else 0, c, s.tracking, FRAME_RATE));
  }

  /** 'm' releases the writer and leaves the log open, so later passes still log rows but lose their frames. */
  lemma PauseReleasesOnlyWriter(setup: Setup, s: State, t: Tick)
    requires t.key == 'm' && s.files.log.Some?
    ensures var r := HandleKey(setup, s, t);
      r.paused && r.files.video.None? && r.files.log == s.files.log
      && Frames(PutFrame(r.files, r.frameCount + 1)) == Frames(r.files)
      && Rows(Log(r).files) == Rows(r.files) + [Log(r).files.log.value.rows[|Log(r).files.log.value.rows| - 1]]
  {
    var r := HandleKey(setup, s, t);
    ReleaseVideoEffect(s.files);
    PutFrameEffect(r.files, r.frameCount + 1);
    var (z, c) := Zones(r);
    PutFrameEffect(r.files, r.frameCount);
    PutRowEffect(PutFrame(r.files, r.frameCount), Row(r.frameCount, if r.tracking then z else 0, c, r.tracking, FRAME_RATE));
  }

  /**
   * 'c' while paused starts session n+1 with names built from this pass's stamp; the old
   * log is left unclosed and kept as written, and a new, empty video and log follow.
   */
  lemma ResumeLeavesOldLog(setup: Setup, s: State, t: Tick)
    requires t.key == 'c' && s.paused
    ensures var r := HandleKey(setup, s, t);
      var cfg := Config(t.stamp, setup.sample);
      var n := s.session + 1;
      r.session == n && !r.paused
      && Logs(r.files) == Logs(s.files) + [LogFile(SessionLog(BARE, cfg, n), HEADER, [])]
      && Videos(r.files) == Videos(s.files) + [VideoFile(SessionVideo(BARE, cfg, n), [])]
  {
    var cfg := Config(t.stamp, setup.sample);
    var n := s.session + 1;
    ReopenEffect(s.files, SessionVideo(BARE, cfg, n), SessionLog(BARE, cfg, n), HEADER);
  }

  // ---------------------------------------------------------------------------------
  // Corrected gate: every pass after the first is logged

  predicate CorrectedValid(s: State) {
    s.files.log.Some? && (s.tracking ==> s.lastPosition.Some?)
    && |Rows(s.files)| + (if s.hasLastFrame then 1 else 0) == s.frameCount
  }

  lemma DetectKeepsPosition(s: State, t: Tick)
    requires s.tracking ==> s.lastPosition.Some?
    ensures var r := Detect(s, t); (r.tracking ==> r.lastPosition.Some?) && r.files == s.files && r.frameCount == s.frameCount
  {
  }

  lemma HandleKeyKeepsLog(setup: Setup, s: State, t: Tick)
    requires s.files.log.Some?
    ensures var r := HandleKey(setup, s, t);
      r.files.log.Some? && Rows(r.files) == Rows(s.files) && r.frameCount == s.frameCount
      && r.tracking == s.tracking && r.lastPosition == s.lastPosition
  {
    if t.key == 'm' {
      ReleaseVideoEffect(s.files);
    } else if t.key == 'c' && s.paused {
      var cfg := Config(t.stamp, setup.sample);
      ReopenEffect(s.files, SessionVideo(BARE, cfg, s.session + 1), SessionLog(BARE, cfg, s.session + 1), HEADER);
    }
  }

  lemma LogAddsOneRow(s: State)
    requires s.files.log.Some?
    ensures var r := Log(s);
      r.files.log.Some? && |Rows(r.files)| == |Rows(s.files)| + 1
      && r == s.(files := r.files)
  {
    var (z, c) := Zones(s);
    PutFrameEffect(s.files, s.frameCount);
    PutRowEffect(PutFrame(s.files, s.frameCount), Row(s.frameCount, if s.tracking then z else 0, c, s.tracking, FRAME_RATE));
  }

  /** A detecting pass without 'q' logs one row and keeps the log open and the position consistent. */
  lemma PassLogsOneRow(setup: Setup, s: State, t: Tick)
    requires s.files.log.Some? && (s.tracking ==> s.lastPosition.Some?) && t.key != 'q'
    ensures var r := Pass(setup, s, t);
      r.files.log.Some? && (r.tracking ==> r.lastPosition.Some?) && |Rows(r.files)| == |Rows(s.files)| + 1
      && r.frameCount == s.frameCount && r.running == s.running && r.hasLastFrame
  {
    var d := Detect(s, t);
    DetectKeepsPosition(s, t);
    LogAddsOneRow(d);
    HandleKeyKeepsLog(setup, Log(d), t);
  }

  /** Without 'q', a pass is counted and the run goes on. */
  lemma StepCounts(setup: Setup, s: State, t: Tick)
    requires s.running && t.key != 'q'
    ensures Step(setup, s, t).running && Step(setup, s, t).frameCount == s.frameCount + 1
  {
  }

  lemma CorrectedStepKeeps(setup: Setup, s: State, t: Tick)
    requires setup.gateOnLastFrame && CorrectedValid(s) && s.running && t.key != 'q'
    ensures var r := Step(setup, s, t);
      CorrectedValid(r) && r.running && r.hasLastFrame && r.frameCount == s.frameCount + 1
  {
    var s1 := s.(frameCount := s.frameCount + 1);
    if Gate(setup, s1) {
      PutFrameEffect(s1.files, s1.frameCount);
    } else {
      PassLogsOneRow(setup, s1, t);
    }
  }

  lemma InitCorrectedValid(setup: Setup, stamp: string, start: real)
    ensures var s0 := Init(setup, stamp, start); CorrectedValid(s0) && s0.running && Rows(s0.files) == []
  {
    var s0 := Init(setup, stamp, start);
    OpenedEffect<Row>(s0.files.video.value.name, s0.files.log.value.name, HEADER);
  }

  /**
   * With the corrected gate and no 'q', the first pass stores the frame and every later
   * pass logs exactly one row, paused or not.
   */
  lemma {:induction false} CorrectedLogsEveryPass(setup: Setup, stamp: string, start: real, ticks: seq<Tick>)
    requires setup.gateOnLastFrame
    requires forall i :: 0 <= i < |ticks| ==> ticks[i].key != 'q'
    ensures var r := Run(setup, Init(setup, stamp, start), ticks);
      CorrectedValid(r) && r.running && r.frameCount == |ticks| && (r.hasLastFrame <==> |ticks| > 0)
      && |Rows(r.files)| == if |ticks| == 0 then 0 else |ticks| - 1
  {
    var s0 := Init(setup, stamp, start);
    if |ticks| == 0 {
      InitCorrectedValid(setup, stamp, start);
    } else {
      var n := |ticks| - 1;
      CorrectedLogsEveryPass(setup, stamp, start, ticks[..n]);
      var prev := Run(setup, s0, ticks[..n]);
      assert ticks[n].key != 'q';
      CorrectedStepKeeps(setup, prev, ticks[n]);
    }
  }

  /** Without a 'q', every pass goes through `frame_count += 1`. */
  lemma {:induction false} FrameCountCountsPasses(setup: Setup, stamp: string, start: real, ticks: seq<Tick>)
    requires forall i :: 0 <= i < |ticks| ==> ticks[i].key != 'q'
    ensures var r := Run(setup, Init(setup, stamp, start), ticks); r.running && r.frameCount == |ticks|
  {
    if |ticks| > 0 {
      var n := |ticks| - 1;
      FrameCountCountsPasses(setup, stamp, start, ticks[..n]);
      assert ticks[n].key != 'q';
      StepCounts(setup, Run(setup, Init(setup, stamp, start), ticks[..n]), ticks[n]);
    }
  }

  // ---------------------------------------------------------------------------------
  // The loop as the script runs it

  class Recorder {
    var hasLastFrame: bool
    var lastPosition: Option<Point>
    var tracking: bool
    var lastMovementTime: real
    var frameCount: nat
    var paused: bool
    var session: nat
    var files: Recording<Row>
    var running: bool

    function Snapshot(): State
      reads this
    {
      State(hasLastFrame, lastPosition, tracking, lastMovementTime, frameCount, paused, session, files, running)
    }

    constructor (setup: Setup, stamp: string, start: real)
      ensures Snapshot() == Init(setup, stamp, start)
    {
      var cfg := Config(stamp, setup.sample);
      hasLastFrame, lastPosition, tracking, lastMovementTime := false, None, false, start;
      frameCount, paused, session := 0, false, 1;
      files := Opened(SessionVideo(BARE, cfg, 1), SessionLog(BARE, cfg, 1), HEADER);
      running := true;
    }

    method DetectMotion(t: Tick)
      modifies this
      ensures Snapshot() == Detect(old(Snapshot()), t)
    {
      var found, position := FindFirstQualifying(t.contours);
      if found {
        tracking := true;
        lastPosition := Some(position);
        lastMovementTime := t.now;
      } else if t.now - lastMovementTime > MOVEMENT_TIMEOUT {
        tracking := false;
        lastPosition := None;
      }
    }

    method WriteOut()
      modifies this
      ensures Snapshot() == Log(old(Snapshot()))
    {
      var piezone, centerzone := 0, false;
      if tracking && lastPosition.Some? {
        var p := lastPosition.value;
        piezone := DeterminePiezone(p.x, p.y);
        centerzone := InCenter(p.x, p.y, CENTER_RADIUS);
      }
      files := PutFrame(files, frameCount);
      files := PutRow(files, Row(frameCount, if tracking then piezone else 0, centerzone, tracking, FRAME_RATE));
    }

    method HandleKeyPress(setup: Setup, t: Tick)
      modifies this
      ensures Snapshot() == HandleKey(setup, old(Snapshot()), t)
    {
      if t.key == 'q' {
        running := false;
      } else if t.key == 'm' {
        paused := true;
        files := ReleaseVideo(files);
      } else if t.key == 'c' && paused {
        paused := false;
        session := session + 1;
        var cfg := Config(t.stamp, setup.sample);
        files := Reopen(files, SessionVideo(BARE, cfg, session), SessionLog(BARE, cfg, session), HEADER);
      }
    }

    /** The gate's body: keep the frame and write it. */
    method StoreFirstFrame()
      modifies this
      ensures Snapshot() == StoreFrame(old(Snapshot()))
    {
      hasLastFrame := true;
      files := PutFrame(files, frameCount);
    }

    /** The body of a pass past the gate. */
    method DetectingPass(setup: Setup, t: Tick)
      modifies this
      ensures Snapshot() == Pass(setup, old(Snapshot()), t)
    {
      DetectMotion(t);
      WriteOut();
      HandleKeyPress(setup, t);
      hasLastFrame := true;
    }

    /** `frame_count += 1` */
    method CountPass()
      modifies this
      ensures Snapshot() == old(Snapshot()).(frameCount := old(frameCount) + 1)
    {
      frameCount := frameCount + 1;
    }

    /** One pass of the `while True` loop. */
    method RunTick(setup: Setup, t: Tick)
      requires running
      modifies this
      ensures Snapshot() == Step(setup, old(Snapshot()), t)
    {
      CountPass();
      if Gate(setup, Snapshot()) {
        StoreFirstFrame();
      } else {
        DetectingPass(setup, t);
      }
    }

    method Teardown()
      modifies this
      ensures Snapshot() == old(Snapshot()).(files := CloseAll(old(files)))
    {
      files := CloseAll(files);
    }
  }

  /** The script after the space bar: passes until 'q', then the writer and the log are closed. */
  method MainLoop(setup: Setup, stamp: string, start: real, ticks: seq<Tick>) returns (final: State)
    ensures var r := Run(setup, Init(setup, stamp, start), ticks);
      final == if r.running then r else r.(files := CloseAll(r.files))
  {
    var rec := new Recorder(setup, stamp, start);
    assert ticks[..0] == [];
    var i := 0;
    while i < |ticks| && rec.running
      invariant 0 <= i <= |ticks|
      invariant rec.Snapshot() == Run(setup, Init(setup, stamp, start), ticks[..i])
    {
      RunOneMore(setup, Init(setup, stamp, start), ticks, i);
      rec.RunTick(setup, ticks[i]);
      i := i + 1;
    }
    if !rec.running {
      RunAfterQuit(setup, Init(setup, stamp, start), ticks, i);
      rec.Teardown();
    } else {
      assert ticks[..i] == ticks;
    }
    final := rec.Snapshot();
  }
}
