/**
 * Retrack15.py: the reference tracking recorder. Each tick it takes a frame, finds a
 * moving object by frame difference when it has no live tracker, follows it with the
 * tracker, classifies the tracked centre into one of six piezo sectors or the central
 * disc, drives the six camera outputs accordingly, releases a tracker whose object has
 * stood still too long, and records the frame and a CSV row. Keys pause ('m'), resume
 * ('c') and quit ('q'); each resume starts a new session with its own pair of files.
 */
module Retrack15 {
  import opened Wrappers
  import opened Text
  import opened Geometry
  import opened Detectors
  import opened Gpio
  import opened Sinks
  import opened Sessions

  const CENTER_RADIUS: int := 100
  const STATIONARY_THRESHOLD: real := 3.0
  const MIN_AREA: real := 500.0
  const NO_TRACKING_MARGIN: int := 80

  /** Header written when the first session's log is opened. */
  const HEADER: seq<string> := ["Frame", "Timestamp", "Piezone", "InCenter", "FPS", "Camera"]
  /** Header written when a resumed session's log is opened: it has no "Camera" column. */
  const RESUME_HEADER: seq<string> := ["Frame", "Timestamp", "Piezone", "InCenter", "FPS"]
  /** Every data row has six values: frame, timestamp, zone, centre flag, fps, camera. */
  const ROW_WIDTH: nat := 6

  /** A data row, without its wall-clock timestamp and smoothed fps. */
  datatype Row = Row(frame: nat, zone: int, inCenter: bool, camera: int)

  /**
   * One pass of the main loop as the program sees it: the contours of the difference
   * against the previous frame, the tracker's reply, the time and the key read.
   */
  datatype Tick = Tick(contours: seq<Contour>, reply: Reply, now: real, key: char)

  /** `tracker is not None`, `tracking`, `last_position` and `stationary_start`. */
  datatype Track = Track(tracker: bool, tracking: bool, lastPosition: Option<Point>, stationaryStart: Option<real>)

  datatype State = State(
    track: Track,
    camera: int,                   // `cameratriggered`
    pins: seq<bool>,               // cam1..cam6 output levels
    paused: bool,
    session: nat,
    frameCount: nat,
    ledBlinking: bool,             // the LED thread is running
    files: Recording<Row>,         // `video_writer`, `log_file` and the files already saved
    running: bool)

  /** The state when the space bar has been pressed: session 1's files open, LED blinking, outputs LOW. */
  function Init(cfg: Config): State {
    State(Track(false, false, None, None), 0, AllLow(), false, 1, 0, true,
          Opened(VideoName(cfg, 1), LogName(cfg, 1), HEADER), true)
  }

  // ---------------------------------------------------------------------------------
  // One tick

  /** Without a live tracker, look for a moving object; finding one starts a tracker and the stationary clock. */
  function Detect(k: Track, t: Tick): Track {
    if !k.tracker || !k.tracking then
      if FindMovingObjectBbox(t.contours, MIN_AREA, Some(NO_TRACKING_MARGIN)).Some? then
        k.(tracker := true, tracking := true, stationaryStart := Some(t.now))
      else k
    else k
  }

  /**
   * The stationary rule for a tracked centre `c`: an unchanged centre keeps the clock and,
   * once more than 3 s have passed, drops the tracker; a moved centre restarts the clock.
   */
  function Follow(k: Track, c: Point, now: real): Track {
    var still := k.lastPosition == Some(c);
    var expired := still && k.stationaryStart.Some? && now - k.stationaryStart.value > STATIONARY_THRESHOLD;
    Track(k.tracker && !expired, k.tracking && !expired, Some(c),
          if still then k.stationaryStart else Some(now))
  }

  /** The writes of this tick's actuation branch. */
  function ActuationWrites(zone: int, center: bool): seq<Write> {
    if center then CentreWrites() else ZoneWrites(zone)
  }

  /** The tracker reported the object at the centre of its box: classify, actuate, apply the stationary rule, log the row. */
  function Tracked(s: State, t: Tick): State {
    var c := Centre(t.reply.box);
    var zone := DeterminePiezone(c.x, c.y);
    var center := InCenter(c.x, c.y, CENTER_RADIUS);
    var camera := if center then 0 else zone;
    s.(track := Follow(s.track, c, t.now), camera := camera,
       pins := ApplyAll(s.pins, ActuationWrites(zone, center)),
       files := PutRow(s.files, Row(s.frameCount, zone, center, camera)))
  }

  /** No tracker, or the tracker lost the object: drop it and log zone 0 with the previous camera code. */
  function Lost(s: State): State {
    s.(track := s.track.(tracker := false, tracking := false),
       files := PutRow(s.files, Row(s.frameCount, 0, false, s.camera)))
  }

  /** The body of `if not paused`: detect, track, actuate, log the row, write the frame. */
  function TrackAndRecord(s: State, t: Tick): State {
    var d := s.(track := Detect(s.track, t));
    var f := if d.track.tracker && t.reply.ok then Tracked(d, t) else Lost(d);
    f.(files := PutFrame(f.files, f.frameCount))
  }

  /** The key handling at the end of a tick. */
  function HandleKey(cfg: Config, s: State, key: char): State {
    if key == 'q' then
      s.(files := CloseAll(s.files), ledBlinking := false, running := false)
    else if key == 'm' then
      s.(files := CloseAll(s.files), paused := true, ledBlinking := false)
    else if key == 'c' && s.paused then
      var n := s.session + 1;
      s.(paused := false, session := n, track := s.track.(tracking := false, tracker := false),
         files := OpenNext(s.files, VideoName(cfg, n), LogName(cfg, n), RESUME_HEADER),
         ledBlinking := true)
    else s
  }

  function Step(cfg: Config, s: State, t: Tick): State {
    if !s.running then s
    else
      var s1 := s.(frameCount := s.frameCount + 1);
      var s2 := if s1.paused then s1 else TrackAndRecord(s1, t);
      HandleKey(cfg, s2, t.key)
  }

  /** The state after a sequence of ticks; ticks after a quit change nothing. */
  function Run(cfg: Config, s: State, ts: seq<Tick>): State {
    if |ts| == 0 then s else Step(cfg, Run(cfg, s, ts[..|ts| - 1]), ts[|ts| - 1])
  }

  lemma RunOneMore(cfg: Config, s: State, ts: seq<Tick>, i: nat)
    requires i < |ts|
    ensures Run(cfg, s, ts[..i + 1]) == Step(cfg, Run(cfg, s, ts[..i]), ts[i])
  {
    assert ts[..i + 1][..i] == ts[..i];
  }

  lemma {:induction false} RunAfterQuit(cfg: Config, s: State, ts: seq<Tick>, i: nat)
    requires i <= |ts| && !Run(cfg, s, ts[..i]).running
    ensures Run(cfg, s, ts) == Run(cfg, s, ts[..i])
    decreases |ts| - i
  {
    if i < |ts| {
      assert ts[..i + 1][..i] == ts[..i];
      RunAfterQuit(cfg, s, ts, i + 1);
    } else {
      assert ts[..i] == ts;
    }
  }

  /** A tick while recording is the recording step followed by the key. */
  lemma RecordingStep(cfg: Config, s: State, t: Tick)
    requires s.running && !s.paused
    ensures Step(cfg, s, t) == HandleKey(cfg, TrackAndRecord(s.(frameCount := s.frameCount + 1), t), t.key)
  {
  }

  /** A tick while paused only counts the frame before handling the key. */
  lemma PausedStep(cfg: Config, s: State, t: Tick)
    requires s.running && s.paused
    ensures Step(cfg, s, t) == HandleKey(cfg, s.(frameCount := s.frameCount + 1), t.key)
  {
  }

  // ---------------------------------------------------------------------------------
  // Invariants

  function RowFrames(rows: seq<Row>): (fs: seq<nat>)
    ensures |fs| == |rows|
  {
    seq(|rows|, i requires 0 <= i < |rows| => rows[i].frame)
  }

  /** Frame numbers of all rows of all sessions, in writing order. */
  function LoggedFrames(s: State): seq<nat> {
    RowFrames(Rows(s.files))
  }

  /** Frame numbers of all frames of all sessions, in writing order. */
  function RecordedFrames(s: State): seq<nat> {
    Frames(s.files)
  }

  /** The outputs always show exactly the camera recorded in `cameratriggered`. */
  predicate OutputsMatchCamera(s: State) {
    0 <= s.camera <= 6 && s.pins == LevelsFor(s.camera)
  }

  predicate TrackerConsistent(k: Track) {
    k.tracker == k.tracking && (k.lastPosition.Some? ==> k.stationaryStart.Some?)
  }

  /** Files are open exactly while running and not paused, and the LED blinks exactly then. */
  predicate FilesOpenWhileRecording(s: State) {
    var recording := s.running && !s.paused;
    s.files.video.Some? == recording && s.files.log.Some? == recording && s.ledBlinking == recording
  }

  /** Rows and frames carry strictly increasing frame numbers, none beyond the frame count. */
  predicate NumberedInOrder(s: State) {
    StrictlyIncreasing(LoggedFrames(s)) && AllBelow(LoggedFrames(s), s.frameCount)
    && StrictlyIncreasing(RecordedFrames(s)) && AllBelow(RecordedFrames(s), s.frameCount)
  }

  /** Session k (from 1) owns the k-th video and the k-th log, named for k. */
  predicate SessionsNamed(cfg: Config, s: State)
  {
    s.session >= 1
    && NamedSessions(GENERATED, cfg, s.files, s.session, HEADER, RESUME_HEADER)
  }

  predicate Valid(cfg: Config, s: State)
  {
    OutputsMatchCamera(s) && TrackerConsistent(s.track) && FilesOpenWhileRecording(s)
    && NumberedInOrder(s) && SessionsNamed(cfg, s)
  }

  lemma InitValid(cfg: Config)
    ensures Valid(cfg, Init(cfg))
  {
    OpenedEffect<Row>(VideoName(cfg, 1), LogName(cfg, 1), HEADER);
  }

  // ---------------------------------------------------------------------------------
  // What one tick does to the records

  lemma RowFramesAppend(rows: seq<Row>, r: Row)
    ensures RowFrames(rows + [r]) == RowFrames(rows) + [r.frame]
  {
  }

  /** The row a recording tick writes. */
  function TickRow(s: State, t: Tick): Row {
    var k := Detect(s.track, t);
    if k.tracker && t.reply.ok then
      var c := Centre(t.reply.box);
      var zone := DeterminePiezone(c.x, c.y);
      var center := InCenter(c.x, c.y, CENTER_RADIUS);
      Row(s.frameCount, zone, center, if center then 0 else zone)
    else Row(s.frameCount, 0, false, s.camera)
  }

  /** Recording a frame touches neither the frame count, the session nor the mode flags. */
  lemma TrackAndRecordKeepsMode(s: State, t: Tick)
    ensures var r := TrackAndRecord(s, t);
      r.frameCount == s.frameCount && r.session == s.session && r.paused == s.paused && r.running == s.running
      && r.ledBlinking == s.ledBlinking
  {
  }

  /** A recording tick adds exactly one row and one frame, both numbered with the frame count, and renames nothing. */
  lemma TrackAndRecordAppends(s: State, t: Tick)
    requires s.files.video.Some? && s.files.log.Some?
    ensures var r := TrackAndRecord(s, t);
      r.frameCount == s.frameCount && r.session == s.session && r.paused == s.paused && r.running == s.running
      && r.ledBlinking == s.ledBlinking
      && r.files.video.Some? && r.files.log.Some?
      && Rows(r.files) == Rows(s.files) + [TickRow(s, t)]
      && Frames(r.files) == Frames(s.files) + [s.frameCount]
      && VideoNames(r.files) == VideoNames(s.files) && LogHeads(r.files) == LogHeads(s.files)
  {
    TrackAndRecordKeepsMode(s, t);
    var row := TickRow(s, t);
    var f := PutRow(s.files, row);
    assert TrackAndRecord(s, t).files == PutFrame(f, s.frameCount);
    PutRowEffect(s.files, row);
    PutFrameEffect(f, s.frameCount);
  }

  lemma TrackAndRecordKeepsInvariants(s: State, t: Tick)
    requires OutputsMatchCamera(s) && TrackerConsistent(s.track)
    ensures OutputsMatchCamera(TrackAndRecord(s, t)) && TrackerConsistent(TrackAndRecord(s, t).track)
  {
    var k := Detect(s.track, t);
    if k.tracker && t.reply.ok {
      var c := Centre(t.reply.box);
      BranchWritesEnd(s.pins, DeterminePiezone(c.x, c.y));
    }
  }

  lemma RecordingKeepsRecords(cfg: Config, s: State, t: Tick)
    requires NumberedInOrder(s) && SessionsNamed(cfg, s)
    requires s.files.video.Some? && s.files.log.Some?
    ensures var r := TrackAndRecord(s.(frameCount := s.frameCount + 1), t);
      NumberedInOrder(r) && SessionsNamed(cfg, r)
  {
    var s1 := s.(frameCount := s.frameCount + 1);
    TrackAndRecordAppends(s1, t);
    RowFramesAppend(Rows(s.files), TickRow(s1, t));
    IncreasingAppend(LoggedFrames(s), s.frameCount);
    IncreasingAppend(RecordedFrames(s), s.frameCount);
  }

  /** A recording tick keeps the invariants (before its key is handled). */
  lemma RecordingKeepsInvariants(cfg: Config, s: State, t: Tick)
    requires Valid(cfg, s) && s.running && !s.paused
    ensures Valid(cfg, TrackAndRecord(s.(frameCount := s.frameCount + 1), t))
  {
    var s1 := s.(frameCount := s.frameCount + 1);
    TrackAndRecordKeepsInvariants(s1, t);
    TrackAndRecordAppends(s1, t);
    RecordingKeepsRecords(cfg, s, t);
  }

  /** The record-keeping invariants depend only on the files, the session and the frame count. */
  lemma RecordsDependOnFiles(cfg: Config, s: State, r: State)
    requires NumberedInOrder(s) && SessionsNamed(cfg, s)
    requires Videos(r.files) == Videos(s.files) && Logs(r.files) == Logs(s.files)
    requires r.session == s.session && r.frameCount >= s.frameCount
    ensures NumberedInOrder(r) && SessionsNamed(cfg, r)
  {
  }

  lemma ResumeKeepsRecords(cfg: Config, s: State)
    requires Valid(cfg, s) && s.running && s.paused
    ensures NumberedInOrder(HandleKey(cfg, s, 'c')) && SessionsNamed(cfg, HandleKey(cfg, s, 'c'))
  {
    var n := s.session + 1;
    OpenNextEffect(s.files, VideoName(cfg, n), LogName(cfg, n), RESUME_HEADER);
    SessionNamesGrow(GENERATED, cfg, s.session, HEADER, RESUME_HEADER);
  }

  lemma HandleKeyKeepsInvariants(cfg: Config, s: State, key: char)
    requires Valid(cfg, s) && s.running
    ensures Valid(cfg, HandleKey(cfg, s, key))
  {
    var r := HandleKey(cfg, s, key);
    if key == 'q' || key == 'm' {
      CloseAllEffect(s.files);
      RecordsDependOnFiles(cfg, s, r);
    } else if key == 'c' && s.paused {
      ResumeKeepsRecords(cfg, s);
    }
  }

  /** Every tick keeps the invariants. */
  lemma StepKeepsInvariants(cfg: Config, s: State, t: Tick)
    requires Valid(cfg, s)
    ensures Valid(cfg, Step(cfg, s, t))
  {
    if s.running {
      var s1 := s.(frameCount := s.frameCount + 1);
      if !s.paused {
        RecordingStep(cfg, s, t);
        RecordingKeepsInvariants(cfg, s, t);
        HandleKeyKeepsInvariants(cfg, TrackAndRecord(s1, t), t.key);
      } else {
        PausedStep(cfg, s, t);
        RecordsDependOnFiles(cfg, s, s1);
        HandleKeyKeepsInvariants(cfg, s1, t.key);
      }
    }
  }

  lemma {:induction false} RunKeepsInvariants(cfg: Config, ts: seq<Tick>)
    ensures Valid(cfg, Run(cfg, Init(cfg), ts))
  {
    if |ts| == 0 {
      InitValid(cfg);
    } else {
      RunKeepsInvariants(cfg, ts[..|ts| - 1]);
      StepKeepsInvariants(cfg, Run(cfg, Init(cfg), ts[..|ts| - 1]), ts[|ts| - 1]);
    }
  }

  /** The part of the invariant the loop body needs. */
  lemma RunKeepsTrackerConsistent(cfg: Config, ts: seq<Tick>)
    ensures TrackerConsistent(Run(cfg, Init(cfg), ts).track)
  {
    RunKeepsInvariants(cfg, ts);
  }

  // ---------------------------------------------------------------------------------
  // Behaviour of a tick

  /** Keys other than a resume while paused keep every file, in order (closing only saves them). */
  lemma KeyKeepsFiles(cfg: Config, s: State, key: char)
    requires !(key == 'c' && s.paused)
    ensures Videos(HandleKey(cfg, s, key).files) == Videos(s.files)
    ensures Logs(HandleKey(cfg, s, key).files) == Logs(s.files)
  {
    CloseAllEffect(s.files);
  }

  /** Key handling never touches the outputs, the camera code or the frame count. */
  lemma KeyKeepsOutputs(cfg: Config, s: State, key: char)
    ensures var r := HandleKey(cfg, s, key);
      r.camera == s.camera && r.pins == s.pins && r.frameCount == s.frameCount
  {
  }

  /** `RecordingTickWritesOne` before the key is handled. */
  lemma RecordingFrameWritesOne(s: State, t: Tick)
    requires s.files.video.Some? && s.files.log.Some?
    ensures LoggedFrames(TrackAndRecord(s, t)) == LoggedFrames(s) + [s.frameCount]
    ensures RecordedFrames(TrackAndRecord(s, t)) == RecordedFrames(s) + [s.frameCount]
  {
    TrackAndRecordAppends(s, t);
    RowFramesAppend(Rows(s.files), TickRow(s, t));
  }

  /** A tick while recording writes exactly one row and one frame, numbered with the new frame count. */
  lemma RecordingTickWritesOne(cfg: Config, s: State, t: Tick)
    requires s.running && !s.paused && s.files.video.Some? && s.files.log.Some?
    ensures LoggedFrames(Step(cfg, s, t)) == LoggedFrames(s) + [s.frameCount + 1]
    ensures RecordedFrames(Step(cfg, s, t)) == RecordedFrames(s) + [s.frameCount + 1]
    ensures Step(cfg, s, t).frameCount == s.frameCount + 1
  {
    var s1 := s.(frameCount := s.frameCount + 1);
    var s2 := TrackAndRecord(s1, t);
    RecordingStep(cfg, s, t);
    RecordingFrameWritesOne(s1, t);
    KeyKeepsFiles(cfg, s2, t.key);
    KeyKeepsOutputs(cfg, s2, t.key);
  }

  /** A tick while paused counts the frame but writes no row and no frame. */
  lemma PausedTickWritesNothing(cfg: Config, s: State, t: Tick)
    requires s.running && s.paused && s.files.video.None? && s.files.log.None?
    ensures LoggedFrames(Step(cfg, s, t)) == LoggedFrames(s)
    ensures RecordedFrames(Step(cfg, s, t)) == RecordedFrames(s)
    ensures Step(cfg, s, t).frameCount == s.frameCount + 1
  {
    var s1 := s.(frameCount := s.frameCount + 1);
    PausedStep(cfg, s, t);
    if t.key == 'c' {
      var n := s.session + 1;
      OpenNextEffect(s.files, VideoName(cfg, n), LogName(cfg, n), RESUME_HEADER);
    } else {
      KeyKeepsFiles(cfg, s1, t.key);
    }
  }

  /** The last row written, read off the files. */
  function LastRow(s: State): Row
    requires |Rows(s.files)| > 0
  {
    Rows(s.files)[|Rows(s.files)| - 1]
  }

  /** `TrackedTickActuates` before the key is handled. */
  lemma TrackedFrameActuates(s: State, t: Tick)
    requires s.files.video.Some? && s.files.log.Some?
    requires OutputsMatchCamera(s) && TrackerConsistent(s.track)
    requires (s.track.tracker || FindMovingObjectBbox(t.contours, MIN_AREA, Some(NO_TRACKING_MARGIN)).Some?) && t.reply.ok
    ensures var c := Centre(t.reply.box);
      var zone, center := DeterminePiezone(c.x, c.y), InCenter(c.x, c.y, CENTER_RADIUS);
      var r := TrackAndRecord(s, t);
      r.camera == (if center then 0 else zone)
      && r.pins == LevelsFor(r.camera)
      && |Rows(r.files)| > 0 && LastRow(r) == Row(s.frameCount, zone, center, r.camera)
  {
    TrackAndRecordAppends(s, t);
    TrackAndRecordKeepsInvariants(s, t);
  }

  /**
   * When a tracker exists (or one is started this tick) and reports the object, the row
   * holds its sector and centre flag, the camera code is 0 in the centre and the sector
   * otherwise, and exactly that camera's output is HIGH.
   */
  lemma TrackedTickActuates(cfg: Config, s: State, t: Tick)
    requires s.running && !s.paused && s.files.video.Some? && s.files.log.Some?
    requires OutputsMatchCamera(s) && TrackerConsistent(s.track)
    requires (s.track.tracker || FindMovingObjectBbox(t.contours, MIN_AREA, Some(NO_TRACKING_MARGIN)).Some?) && t.reply.ok
    ensures var c := Centre(t.reply.box);
      var zone, center := DeterminePiezone(c.x, c.y), InCenter(c.x, c.y, CENTER_RADIUS);
      var r := Step(cfg, s, t);
      r.camera == (if center then 0 else zone)
      && r.pins == LevelsFor(r.camera)
      && |Rows(r.files)| > 0 && LastRow(r) == Row(s.frameCount + 1, zone, center, r.camera)
  {
    var s1 := s.(frameCount := s.frameCount + 1);
    var s2 := TrackAndRecord(s1, t);
    RecordingStep(cfg, s, t);
    TrackedFrameActuates(s1, t);
    KeyKeepsFiles(cfg, s2, t.key);
    KeyKeepsOutputs(cfg, s2, t.key);
  }

  /**
   * When there is no tracker to ask, or it loses the object, the tracker is dropped, the
   * outputs and camera code stay as they were, and the row has zone 0, no centre, and the
   * previous camera code.
   */
  lemma LostTickRepeatsCamera(cfg: Config, s: State, t: Tick)
    requires s.running && !s.paused && s.files.video.Some? && s.files.log.Some?
    requires s.track.tracker == s.track.tracking
    requires !((s.track.tracker || FindMovingObjectBbox(t.contours, MIN_AREA, Some(NO_TRACKING_MARGIN)).Some?) && t.reply.ok)
    ensures var r := Step(cfg, s, t);
      !r.track.tracker && !r.track.tracking && r.camera == s.camera && r.pins == s.pins
      && |Rows(r.files)| > 0 && LastRow(r) == Row(s.frameCount + 1, 0, false, s.camera)
  {
    var s1 := s.(frameCount := s.frameCount + 1);
    var s2 := TrackAndRecord(s1, t);
    RecordingStep(cfg, s, t);
    TrackAndRecordAppends(s1, t);
    KeyKeepsFiles(cfg, s2, t.key);
  }

  /**
   * The stationary rule: a live tracker that reports the object is released exactly when
   * the centre equals the previous one and more than 3 s have passed since the stationary
   * clock was last reset; any movement resets the clock to now.
   */
  lemma StationaryRelease(cfg: Config, s: State, t: Tick)
    requires s.running && !s.paused && TrackerConsistent(s.track) && s.track.tracker && t.reply.ok
    ensures var c := Centre(t.reply.box);
      var still := s.track.lastPosition == Some(c);
      var r := Step(cfg, s, t).track;
      (!r.tracker <==> still && t.now - s.track.stationaryStart.value > STATIONARY_THRESHOLD)
      && (!still ==> r.stationaryStart == Some(t.now))
      && r.lastPosition == Some(c)
  {
    RecordingStep(cfg, s, t);
  }

  /** A tracker started this tick is never released by the stationary rule in the same tick. */
  lemma NewTrackerSurvivesItsFirstTick(cfg: Config, s: State, t: Tick)
    requires s.running && !s.paused && !s.track.tracker && t.reply.ok
    requires FindMovingObjectBbox(t.contours, MIN_AREA, Some(NO_TRACKING_MARGIN)).Some?
    ensures Step(cfg, s, t).track.tracker && Step(cfg, s, t).track.stationaryStart == Some(t.now)
  {
    RecordingStep(cfg, s, t);
  }

  /**
   * 'c' while paused starts the next session: new files named for it, a log header of five
   * columns (rows keep writing six), tracking reset, LED blinking again.
   */
  lemma ResumeStartsNextSession(cfg: Config, s: State, t: Tick)
    requires s.running && s.paused && t.key == 'c'
    ensures var r := Step(cfg, s, t);
      var n := s.session + 1;
      r.session == n && !r.paused && !r.track.tracker && !r.track.tracking && r.ledBlinking
      && r.files.video == Some(VideoFile(VideoName(cfg, n), []))
      && r.files.log == Some(LogFile(LogName(cfg, n), RESUME_HEADER, []))
      && |RESUME_HEADER| == ROW_WIDTH - 1 && |HEADER| == ROW_WIDTH
  {
    PausedStep(cfg, s, t);
  }

  /** 'c' does nothing while recording: the tick only records the frame. */
  lemma ResumeIgnoredWhileRecording(cfg: Config, s: State, t: Tick)
    requires s.running && !s.paused && t.key == 'c'
    ensures Step(cfg, s, t) == TrackAndRecord(s.(frameCount := s.frameCount + 1), t)
  {
    RecordingStep(cfg, s, t);
    TrackAndRecordKeepsMode(s.(frameCount := s.frameCount + 1), t);
  }

  /** 'm' pauses: both files are saved and closed, the LED thread stops. */
  lemma PauseSavesSession(cfg: Config, s: State, t: Tick)
    requires Valid(cfg, s) && s.running && t.key == 'm'
    ensures var r := Step(cfg, s, t);
      r.paused && r.running && r.files.video.None? && r.files.log.None? && !r.ledBlinking
      && |r.files.savedLogs| == s.session && |r.files.savedVideos| == s.session
  {
    StepKeepsInvariants(cfg, s, t);
  }

  /** 'q' ends the run with every file saved and closed; later ticks change nothing. */
  lemma QuitClosesEverything(cfg: Config, s: State, t: Tick, t': Tick)
    requires Valid(cfg, s) && s.running && t.key == 'q'
    ensures var r := Step(cfg, s, t);
      !r.running && r.files.video.None? && r.files.log.None? && !r.ledBlinking
      && |r.files.savedLogs| == s.session && |r.files.savedVideos| == s.session
      && Step(cfg, r, t') == r
  {
    StepKeepsInvariants(cfg, s, t);
  }

  /** No two files of a run share a name: sessions differ in number, videos and logs in suffix. */
  lemma FilesNeverShareNames(cfg: Config, s: State)
    requires Valid(cfg, s)
    ensures var ls, vs := Logs(s.files), Videos(s.files);
      (forall i, j :: 0 <= i < j < |ls| ==> ls[i].name != ls[j].name)
      && (forall i, j :: 0 <= i < j < |vs| ==> vs[i].name != vs[j].name)
      && (forall i, j :: 0 <= i < |ls| && 0 <= j < |vs| ==> ls[i].name != vs[j].name)
  {
    NamingsSeparable();
    NamedSessionsDistinct(GENERATED, cfg, s.files, s.session, HEADER, RESUME_HEADER);
  }

  // ---------------------------------------------------------------------------------
  // The main loop

  /**
   * The variables of `main()` after the space bar, as one object: each tick updates them
   * in place, and the six output levels live in a fixed array.
   */
  class Recorder {
    var tracker: bool
    var tracking: bool
    var lastPosition: Option<Point>
    var stationaryStart: Option<real>
    var camera: int
    var pins: array<bool>
    var paused: bool
    var session: nat
    var frameCount: nat
    var ledBlinking: bool
    var files: Recording<Row>
    var running: bool

    /** The variables read as a state of the step function. */
    function Snapshot(): State
      reads this, pins
    {
      State(Track(tracker, tracking, lastPosition, stationaryStart), camera, pins[..], paused,
            session, frameCount, ledBlinking, files, running)
    }

    /** Opening session 1: both files named for it, the log with the six-column header, LED blinking. */
    constructor (cfg: Config)
      ensures pins.Length == 6 && fresh(pins) && Snapshot() == Init(cfg)
    {
      tracker, tracking := false, false;
      lastPosition, stationaryStart := None, None;
      camera := 0;
      pins := new bool[6](_ => false);
      paused := false;
      session := 1;
      frameCount := 0;
      ledBlinking := true;
      files := Opened(VideoName(cfg, 1), LogName(cfg, 1), HEADER);
      running := true;
      new;
      assert pins[..] == AllLow();
    }

    /** Without a live tracker, look for a moving object and start tracking it. */
    method StartTracker(t: Tick)
      modifies this
      ensures pins == old(pins) && Snapshot() == old(Snapshot()).(track := Detect(old(Snapshot()).track, t))
    {
      if !tracker || !tracking {
        var bbox := FindMovingObjectBbox(t.contours, MIN_AREA, Some(NO_TRACKING_MARGIN));
        if bbox.Some? {
          tracker, tracking := true, true;
          stationaryStart := Some(t.now);
        }
      }
    }

    /** The `if center` / `if zone == k` branches: drive the six outputs and set the camera code. */
    method Actuate(zone: int, center: bool)
      requires pins.Length == 6 && 1 <= zone <= 6
      modifies this, pins
      ensures pins == old(pins) && pins[..] == ApplyAll(old(pins[..]), ActuationWrites(zone, center))
      ensures camera == (if center then 0 else zone)
      ensures Snapshot() == old(Snapshot()).(camera := camera, pins := pins[..])
    {
      if center {
        WritePins(pins, CentreWrites());
        camera := 0;
      } else {
        WritePins(pins, ZoneWrites(zone));
        camera := zone;
      }
    }

    /** The stationary rule on the tracker variables, for the tracked centre `c`. */
    method CheckStationary(c: Point, now: real)
      requires TrackerConsistent(Snapshot().track)
      modifies this
      ensures pins == old(pins) && Snapshot() == old(Snapshot()).(track := Follow(old(Snapshot()).track, c, now))
    {
      if lastPosition == Some(c) {
        if now - stationaryStart.value > STATIONARY_THRESHOLD {
          tracking, tracker := false, false;
        }
      } else {
        stationaryStart := Some(now);
      }
      lastPosition := Some(c);
    }

    /** The tracker reported the object: classify, drive the outputs, apply the stationary rule, log. */
    method FollowObject(t: Tick)
      requires pins.Length == 6 && TrackerConsistent(Snapshot().track)
      modifies this, pins
      ensures pins == old(pins) && Snapshot() == Tracked(old(Snapshot()), t)
    {
      var c := Centre(t.reply.box);
      var zone := DeterminePiezone(c.x, c.y);
      var center := InCenter(c.x, c.y, CENTER_RADIUS);
      Actuate(zone, center);
      CheckStationary(c, t.now);
      files := PutRow(files, Row(frameCount, zone, center, camera));
    }

    /** The tracker has no object this tick: drop it and log zone 0 with the previous camera code. */
    method DropTracker()
      modifies this
      ensures pins == old(pins) && Snapshot() == Lost(old(Snapshot()))
    {
      tracking, tracker := false, false;
      files := PutRow(files, Row(frameCount, 0, false, camera));
    }

    /** `video_writer.write(frame)`. */
    method SaveFrame()
      modifies this
      ensures pins == old(pins) && Snapshot() == old(Snapshot()).(files := PutFrame(old(files), frameCount))
    {
      files := PutFrame(files, frameCount);
    }

    /** The body of `if not paused`: detect, track, actuate, log the row, write the frame. */
    method RecordFrame(t: Tick)
      requires pins.Length == 6 && TrackerConsistent(Snapshot().track)
      modifies this, pins
      ensures pins == old(pins) && Snapshot() == TrackAndRecord(old(Snapshot()), t)
    {
      StartTracker(t);
      ghost var d := Snapshot();
      if tracker && t.reply.ok {
        FollowObject(t);
      } else {
        DropTracker();
      }
      ghost var f := Snapshot();
      assert f == if d.track.tracker && t.reply.ok then Tracked(d, t) else Lost(d);
      SaveFrame();
    }

    /** 'm': pause, release the video, close the log, stop the LED. */
    method Pause()
      modifies this
      ensures pins == old(pins)
      ensures Snapshot() == old(Snapshot()).(files := CloseAll(old(files)), paused := true, ledBlinking := false)
    {
      paused := true;
      files := CloseAll(files);
      ledBlinking := false;
    }

    /** Drop the tracker: both tracking flags cleared. */
    method StopTracking()
      modifies this
      ensures pins == old(pins)
      ensures Snapshot() == old(Snapshot()).(track := old(Snapshot()).track.(tracking := false, tracker := false))
    {
      tracking, tracker := false, false;
    }

    /** Session `n` begins: its files opened under the given names and the LED blinking. */
    method OpenSession(n: nat, videoName: string, logName: string, header: seq<string>)
      modifies this
      ensures pins == old(pins)
      ensures Snapshot() == old(Snapshot()).(paused := false, session := n, ledBlinking := true,
                                             files := OpenNext(old(files), videoName, logName, header))
    {
      paused, session, ledBlinking := false, n, true;
      files := OpenNext(files, videoName, logName, header);
    }

    /** 'c' while paused: the next session, with new files and the LED blinking again. */
    method Resume(cfg: Config)
      modifies this
      ensures pins == old(pins)
      ensures var s := old(Snapshot()); var n := s.session + 1;
        Snapshot() == s.(paused := false, session := n, track := s.track.(tracking := false, tracker := false),
                         files := OpenNext(s.files, VideoName(cfg, n), LogName(cfg, n), RESUME_HEADER),
                         ledBlinking := true)
    {
      var n := session + 1;
      StopTracking();
      OpenSession(n, VideoName(cfg, n), LogName(cfg, n), RESUME_HEADER);
    }

    /** The key handling of a tick; 'q' only ends the loop, the files are closed after it. */
    method HandleKeyPress(cfg: Config, key: char)
      modifies this
      ensures pins == old(pins)
      ensures key == 'q' ==> Snapshot() == old(Snapshot()).(running := false)
      ensures key != 'q' ==> Snapshot() == HandleKey(cfg, old(Snapshot()), key)
    {
      if key == 'q' {
        running := false;
      } else if key == 'm' {
        Pause();
      } else if key == 'c' && paused {
        Resume(cfg);
      }
    }

    /**
     * One pass of the loop body: count the frame, record it unless paused, handle the key.
     * On 'q' the loop is left before the files are closed, so the state is the step's
     * result with the files still to close.
     */
    method RunTick(cfg: Config, t: Tick)
      requires running && pins.Length == 6 && TrackerConsistent(Snapshot().track)
      modifies this, pins
      ensures pins == old(pins)
      ensures t.key != 'q' ==> Snapshot() == Step(cfg, old(Snapshot()), t)
      ensures t.key == 'q' ==>
                !running && Snapshot().(files := CloseAll(files), ledBlinking := false) == Step(cfg, old(Snapshot()), t)
    {
      ghost var before := Snapshot();
      frameCount := frameCount + 1;
      ghost var s1 := Snapshot();
      assert s1 == before.(frameCount := before.frameCount + 1);
      if !paused {
        RecordingStep(cfg, before, t);
        RecordFrame(t);
        assert Snapshot() == TrackAndRecord(s1, t);
      } else {
        PausedStep(cfg, before, t);
      }
      ghost var s2 := Snapshot();
      assert Step(cfg, before, t) == HandleKey(cfg, s2, t.key);
      HandleKeyPress(cfg, t.key);
    }

    /** After the loop: release the video, close the log, stop the LED. */
    method Teardown()
      modifies this
      ensures pins == old(pins)
      ensures Snapshot() == old(Snapshot()).(files := CloseAll(old(files)), ledBlinking := false)
    {
      files := CloseAll(files);
      ledBlinking := false;
    }
  }

  /**
   * `main()` after the space bar: the loop over ticks, ending at 'q' with the files closed
   * and the LED stopped. Its result is the state the step function reaches on the same ticks.
   */
  method MainLoop(cfg: Config, ticks: seq<Tick>) returns (final: State)
    ensures final == Run(cfg, Init(cfg), ticks)
  {
    var rec := new Recorder(cfg);
    assert ticks[..0] == [];
    var i := 0;
    while i < |ticks|
      invariant 0 <= i <= |ticks| && rec.pins.Length == 6 && fresh(rec.pins) && rec.running
      invariant rec.Snapshot() == Run(cfg, Init(cfg), ticks[..i])
    {
      RunKeepsTrackerConsistent(cfg, ticks[..i]);
      RunOneMore(cfg, Init(cfg), ticks, i);
      var t := ticks[i];
      rec.RunTick(cfg, t);
      i := i + 1;
      if t.key == 'q' {
        break;
      }
    }
    if !rec.running {
      rec.Teardown();
      RunAfterQuit(cfg, Init(cfg), ticks, i);
    } else {
      assert ticks[..i] == ticks;
    }
    final := rec.Snapshot();
  }
}
