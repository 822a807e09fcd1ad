/**
 * Old_versions/Retrack12.py: an earlier tracking recorder. It opens no files at start:
 * the first successful detection of a session opens that session's video and log. A
 * tracked centre inside an edge band counts as a lost object. Every tick with an open
 * writer writes a frame and a row, tracked or not. 'm' pauses and closes the files, 'c'
 * resumes into the next session (its files appear at its first detection), 'q' quits.
 *
 * As written, 'm' closes the log file but leaves the CSV writer bound to it, so the next
 * tick's row write fails on a closed file and ends the program. `Setup.unbindOnPause`
 * selects between the script as written (false) and the evidently intended version that
 * also drops the writer (true).
 */
module Retrack12 {
  import opened Wrappers
  import opened Text
  import opened Geometry
  import opened Detectors
  import opened Sinks
  import opened Sessions

  const CENTER_RADIUS: int := 100
  const STATIONARY_THRESHOLD: real := 3.0
  const MIN_AREA: real := 500.0
  const NO_TRACK_ZONE_WIDTH: int := 80
  const HEADER: seq<string> := ["Frame", "Timestamp", "Piezone", "InCenter", "FPS"]

  /** A data row, without its wall-clock timestamp and smoothed fps. */
  datatype Row = Row(frame: nat, zone: int, inCenter: bool)

  /** One pass of the loop: contours of the frame difference, the tracker's reply, the time, the key. */
  datatype Tick = Tick(contours: seq<Contour>, reply: Reply, now: real, key: char)

  /** The session names, and whether pausing also drops the CSV writer (false: the script as written). */
  datatype Setup = Setup(names: Config, unbindOnPause: bool)

  datatype Status = Running | Quit | Crashed

  /**
   * The tracker: `tracker` and `tracking` are always set and cleared together in this
   * script, so one flag stands for both.
   */
  datatype Track = Track(tracking: bool, lastPosition: Option<Point>, stationaryStart: Option<real>)

  /**
   * The loop's variables: `zone` and `center` keep their values across paused ticks,
   * `writer` says whether `log_writer` is bound.
   */
  datatype State = State(
    track: Track, zone: int, center: bool, paused: bool, session: nat, frameCount: nat,
    files: Recording<Row>, writer: bool, status: Status)

  /** The state when the space bar has been pressed: nothing open, session 1. */
  function Init(): State {
    State(Track(false, None, None), 0, false, false, 1, 0, Recording(None, None, [], []), false, Running)
  }

  // ---------------------------------------------------------------------------------
  // One tick

  /** Without a tracker, look for a moving object; finding one starts a tracker and the stationary clock. */
  function Detect(k: Track, t: Tick): Track {
    if !k.tracking && FindMovingObjectBbox(t.contours, MIN_AREA, Some(NO_TRACK_ZONE_WIDTH)).Some? then
      k.(tracking := true, stationaryStart := Some(t.now))
    else k
  }

  /** A detection opens the session's pair when no video writer is open. */
  function OpenLazily(cfg: Setup, s: State, t: Tick): State {
    if !s.track.tracking && FindMovingObjectBbox(t.contours, MIN_AREA, Some(NO_TRACK_ZONE_WIDTH)).Some?
       && s.files.video.None? then
      s.(files := OpenNext(s.files, VideoName(cfg.names, s.session), LogName(cfg.names, s.session), HEADER), writer := true)
    else s
  }

  /** The tracker's reply counts only when its box centre lies between the edge bands. */
  predicate Usable(k: Track, t: Tick) {
    var c := Centre(t.reply.box);
    k.tracking && t.reply.ok && !InNoTrackZone(c.x, NO_TRACK_ZONE_WIDTH, WIDTH)
  }

  /** The stationary rule for the tracked centre `c` (exact equality, more than 3 s). */
  function Follow(k: Track, c: Point, now: real): Track {
    var still := k.lastPosition == Some(c);
    var expired := still && k.stationaryStart.Some? && now - k.stationaryStart.value > STATIONARY_THRESHOLD;
    Track(k.tracking && !expired, Some(c), if still then k.stationaryStart else Some(now))
  }

  /** `zone = 0; center = False`, then classify a usable reply, or drop the tracker. */
  function Update(s: State, t: Tick): State {
    if Usable(s.track, t) then
      var c := Centre(t.reply.box);
      s.(zone := DeterminePiezone(c.x, c.y), center := InCenter(c.x, c.y, CENTER_RADIUS),
         track := Follow(s.track, c, t.now))
    else s.(zone := 0, center := false, track := s.track.(tracking := false))
  }

  /** The body of `if not paused`. */
  function TrackTick(cfg: Setup, s: State, t: Tick): State {
    var o := OpenLazily(cfg, s, t);
    Update(o.(track := Detect(s.track, t)), t)
  }

  /**
   * The writes outside the pause guard: a frame when a video writer is open, a row when
   * the CSV writer is bound; a bound writer whose file is closed raises and ends the run.
   */
  function WriteOut(s: State): State {
    var f := PutFrame(s.files, s.frameCount);
    if !s.writer then s.(files := f)
    else if f.log.None? then s.(files := f, status := Crashed)
    else s.(files := PutRow(f, Row(s.frameCount, s.zone, s.center)))
  }

  /** 'q' quits and the teardown closes the files; 'm' pauses; 'c' resumes into the next session. */
  function HandleKey(cfg: Setup, s: State, key: char): State {
    if key == 'q' then
      s.(files := CloseAll(s.files), status := Quit)
    else if key == 'm' then
      s.(paused := true, files := CloseAll(s.files), writer := s.writer && !cfg.unbindOnPause)
    else if key == 'c' && s.paused then
      s.(paused := false, session := s.session + 1, track := s.track.(tracking := false))
    else s
  }

  /** Count the frame and, unless paused, detect and track. */
  function Advance(cfg: Setup, s: State, t: Tick): State {
    var s1 := s.(frameCount := s.frameCount + 1);
    if s1.paused then s1 else TrackTick(cfg, s1, t)
  }

  function Step(cfg: Setup, s: State, t: Tick): State {
    if s.status != Running then s
    else
      var s3 := WriteOut(Advance(cfg, s, t));
      if s3.status == Crashed then s3 else HandleKey(cfg, s3, t.key)
  }

  /** A pass that writes and then reads 'q' ends with the files closed and the loop left. */
  lemma QuitStep(cfg: Setup, s: State, t: Tick, s3: State)
    requires s.status == Running && t.key == 'q'
    requires s3 == WriteOut(Advance(cfg, s, t)) && s3.status != Crashed
    ensures Step(cfg, s, t) == s3.(files := CloseAll(s3.files), status := Quit)
  {
  }

  function Run(cfg: Setup, s: State, ts: seq<Tick>): State {
    if |ts| == 0 then s else Step(cfg, Run(cfg, s, ts[..|ts| - 1]), ts[|ts| - 1])
  }

  lemma RunOneMore(cfg: Setup, s: State, ts: seq<Tick>, i: nat)
    requires i < |ts|
    ensures Run(cfg, s, ts[..i + 1]) == Step(cfg, Run(cfg, s, ts[..i]), ts[i])
  {
    assert ts[..i + 1][..i] == ts[..i];
  }

  lemma {:induction false} RunAfterStop(cfg: Setup, s: State, ts: seq<Tick>, i: nat)
    requires i <= |ts| && Run(cfg, s, ts[..i]).status != Running
    ensures Run(cfg, s, ts) == Run(cfg, s, ts[..i])
    decreases |ts| - i
  {
    if i < |ts| {
      assert ts[..i + 1][..i] == ts[..i];
      RunAfterStop(cfg, s, ts, i + 1);
    } else {
      assert ts[..i] == ts;
    }
  }

  // ---------------------------------------------------------------------------------
  // Invariants

  function RowFrames(rows: seq<Row>): (fs: seq<nat>)
    ensures |fs| == |rows|
  {
    seq(|rows|, i requires 0 <= i < |rows| => rows[i].frame)
  }

  function LoggedFrames(s: State): seq<nat> {
    RowFrames(Rows(s.files))
  }

  lemma RowFramesAppend(rows: seq<Row>, r: Row)
    ensures RowFrames(rows + [r]) == RowFrames(rows) + [r.frame]
  {
  }

  /** The video and the log are opened and closed together, and never while paused. */
  predicate Paired(s: State) {
    s.files.video.Some? == s.files.log.Some? && (s.paused ==> s.files.log.None?)
  }

  /** The writer is bound exactly while a log is open; needs the correction. */
  predicate WriterMatchesLog(s: State) {
    s.status == Running ==> s.writer == s.files.log.Some?
  }

  predicate TrackerConsistent(k: Track) {
    k.lastPosition.Some? ==> k.stationaryStart.Some?
  }

  /** Rows and frames carry strictly increasing frame numbers, none beyond the frame count. */
  predicate NumberedInOrder(s: State) {
    StrictlyIncreasing(LoggedFrames(s)) && AllBelow(LoggedFrames(s), s.frameCount)
    && StrictlyIncreasing(Frames(s.files)) && AllBelow(Frames(s.files), s.frameCount)
  }

  predicate Valid(cfg: Setup, s: State) {
    Paired(s) && TrackerConsistent(s.track) && NumberedInOrder(s)
    && (cfg.unbindOnPause ==> WriterMatchesLog(s))
  }

  /** Detection and the lazy opening touch only the tracker and the files. */
  lemma TrackTickShape(cfg: Setup, s: State, t: Tick)
    requires Paired(s) && !s.paused
    ensures var r := TrackTick(cfg, s, t);
      r.paused == s.paused && r.session == s.session && r.frameCount == s.frameCount && r.status == s.status
      && r.files.video.Some? == r.files.log.Some?
      && Frames(r.files) == Frames(s.files) && Rows(r.files) == Rows(s.files)
      && (r.writer == s.writer || (r.writer && r.files.log.Some?))
      && (s.files.log.Some? ==> r.files == s.files && r.writer == s.writer)
  {
    var o := OpenLazily(cfg, s, t);
    if o != s {
      OpenNextEffect(s.files, VideoName(cfg.names, s.session), LogName(cfg.names, s.session), HEADER);
      AllFramesOpenEmpty(s.files.savedVideos, VideoName(cfg.names, s.session));
      AllRowsOpenEmpty(s.files.savedLogs, LogName(cfg.names, s.session), HEADER);
    }
  }

  /** What counting and tracking do, in the terms the invariants need. */
  lemma AdvanceShape(cfg: Setup, s: State, t: Tick)
    requires Paired(s) && TrackerConsistent(s.track)
    ensures var r := Advance(cfg, s, t);
      r.paused == s.paused && r.session == s.session && r.frameCount == s.frameCount + 1 && r.status == s.status
      && Paired(r) && TrackerConsistent(r.track)
      && Frames(r.files) == Frames(s.files) && Rows(r.files) == Rows(s.files)
      && (r.writer == s.writer || (r.writer && r.files.log.Some?))
      && (s.files.log.Some? ==> r.files == s.files && r.writer == s.writer)
      && (s.paused ==> r.files == s.files && r.writer == s.writer)
  {
    var s1 := s.(frameCount := s.frameCount + 1);
    if !s1.paused {
      assert Advance(cfg, s, t) == TrackTick(cfg, s1, t);
      TrackTickShape(cfg, s1, t);
      TrackTickKeepsTracker(cfg, s1, t);
    } else {
      assert Advance(cfg, s, t) == s1;
    }
  }

  lemma TrackTickKeepsTracker(cfg: Setup, s: State, t: Tick)
    requires TrackerConsistent(s.track)
    ensures TrackerConsistent(TrackTick(cfg, s, t).track)
  {
  }

  /** The writes add at most one frame and one row, both numbered with the frame count. */
  lemma WriteOutEffect(s: State)
    ensures var r := WriteOut(s);
      r.paused == s.paused && r.session == s.session && r.frameCount == s.frameCount && r.track == s.track
      && r.writer == s.writer && r.files.video == (if s.files.video.Some? then WriteFrame(s.files.video, s.frameCount) else None)
      && r.files.log.Some? == s.files.log.Some?
      && Frames(r.files) == Frames(s.files) + (if s.files.video.Some? then [s.frameCount] else [])
      && LoggedFrames(r) == LoggedFrames(s) + (if s.writer && s.files.log.Some? then [s.frameCount] else [])
      && (r.status == Crashed <==> s.status == Crashed || (s.writer && s.files.log.None?))
      && (r.status != Crashed ==> r.status == s.status)
  {
    var f := PutFrame(s.files, s.frameCount);
    PutFrameEffect(s.files, s.frameCount);
    if s.writer && f.log.Some? {
      var row := Row(s.frameCount, s.zone, s.center);
      PutRowEffect(f, row);
      RowFramesAppend(Rows(s.files), row);
    }
  }

  lemma HandleKeyKeepsInvariants(cfg: Setup, s: State, key: char)
    requires Valid(cfg, s) && s.status == Running
    ensures Valid(cfg, HandleKey(cfg, s, key))
  {
    if key == 'q' || key == 'm' {
      CloseAllEffect(s.files);
    }
  }

  /** Counting, tracking and writing keep the invariants; without the correction the write may fail. */
  lemma WriteKeepsInvariants(cfg: Setup, s: State, t: Tick)
    requires Valid(cfg, s) && s.status == Running
    ensures var r := WriteOut(Advance(cfg, s, t));
      Paired(r) && TrackerConsistent(r.track) && NumberedInOrder(r)
      && r.frameCount == s.frameCount + 1 && r.paused == s.paused && r.session == s.session
      && (cfg.unbindOnPause ==> r.status == Running && WriterMatchesLog(r))
  {
    var s2 := Advance(cfg, s, t);
    AdvanceShape(cfg, s, t);
    WriteOutEffect(s2);
    IncreasingAppend(LoggedFrames(s), s.frameCount);
    IncreasingAppend(Frames(s.files), s.frameCount);
    IncreasingAppend(LoggedFrames(s2), s.frameCount + 1);
    IncreasingAppend(Frames(s2.files), s.frameCount + 1);
  }

  /** Every tick keeps the invariants; with the correction this includes "the writer is bound only to an open log". */
  lemma StepKeepsInvariants(cfg: Setup, s: State, t: Tick)
    requires Valid(cfg, s)
    ensures Valid(cfg, Step(cfg, s, t))
  {
    if s.status == Running {
      var s3 := WriteOut(Advance(cfg, s, t));
      WriteKeepsInvariants(cfg, s, t);
      if s3.status != Crashed {
        HandleKeyKeepsInvariants(cfg, s3, t.key);
      }
    }
  }

  /** With the correction a running tick never fails. */
  lemma CorrectedStepNeverCrashes(cfg: Setup, s: State, t: Tick)
    requires cfg.unbindOnPause && Valid(cfg, s) && s.status != Crashed
    ensures Step(cfg, s, t).status != Crashed
  {
    if s.status == Running {
      WriteKeepsInvariants(cfg, s, t);
    }
  }

  lemma {:induction false} RunKeepsInvariants(cfg: Setup, ts: seq<Tick>)
    ensures Valid(cfg, Run(cfg, Init(), ts))
  {
    if |ts| > 0 {
      RunKeepsInvariants(cfg, ts[..|ts| - 1]);
      StepKeepsInvariants(cfg, Run(cfg, Init(), ts[..|ts| - 1]), ts[|ts| - 1]);
    }
  }

  // ---------------------------------------------------------------------------------
  // Behaviour

  /** Until a detection succeeds, no file exists; the first one opens the session's pair with the five-column header. */
  lemma DetectionOpensSession(cfg: Setup, s: State, t: Tick)
    requires s.status == Running && !s.paused && !s.track.tracking && s.files.video.None? && s.files.log.None?
    requires t.key != 'q' && t.key != 'm'
    ensures var r := Step(cfg, s, t);
      var found := FindMovingObjectBbox(t.contours, MIN_AREA, Some(NO_TRACK_ZONE_WIDTH)).Some?;
      (found ==> r.writer && r.status == Running
                 && r.files.video == Some(VideoFile(VideoName(cfg.names, s.session), [s.frameCount + 1]))
                 && r.files.log == Some(LogFile(LogName(cfg.names, s.session), HEADER, [Row(s.frameCount + 1, r.zone, r.center)])))
      && (!found ==> r.files == s.files)
  {
    var found := FindMovingObjectBbox(t.contours, MIN_AREA, Some(NO_TRACK_ZONE_WIDTH)).Some?;
    var s1 := s.(frameCount := s.frameCount + 1);
    var a := Advance(cfg, s, t);
    assert a == TrackTick(cfg, s1, t);
    var w := WriteOut(a);
    assert Step(cfg, s, t) == w;
    if found {
      assert a.files == OpenNext(s.files, VideoName(cfg.names, s.session), LogName(cfg.names, s.session), HEADER) && a.writer;
      var noFrames: seq<nat>, noRows: seq<Row> := [], [];
      assert noFrames + [s.frameCount + 1] == [s.frameCount + 1];
      assert noRows + [Row(s.frameCount + 1, a.zone, a.center)] == [Row(s.frameCount + 1, a.zone, a.center)];
      assert w.files.video == Some(VideoFile(VideoName(cfg.names, s.session), [s.frameCount + 1]));
      assert w.files.log == Some(LogFile(LogName(cfg.names, s.session), HEADER, [Row(s.frameCount + 1, a.zone, a.center)]));
    }
  }

  /** A usable reply never comes from the edge bands: a box centred there counts as a lost object. */
  lemma EdgeBandIsLoss(cfg: Setup, s: State, t: Tick)
    requires s.status == Running && !s.paused && s.track.tracking && t.reply.ok
    requires InNoTrackZone(Centre(t.reply.box).x, NO_TRACK_ZONE_WIDTH, WIDTH)
    ensures var r := Step(cfg, s, t);
      r.status == Crashed || (!r.track.tracking && r.zone == 0 && !r.center)
  {
  }

  /**
   * Every running, unpaused tick with the writer bound to an open log writes one frame and
   * one row numbered with the new frame count, whether the object is tracked or lost.
   */
  lemma OpenTickWritesOne(cfg: Setup, s: State, t: Tick)
    requires Valid(cfg, s) && s.status == Running && !s.paused && s.writer && s.files.log.Some?
    requires t.key != 'm' && t.key != 'q'
    ensures var r := Step(cfg, s, t);
      r.status == Running
      && LoggedFrames(r) == LoggedFrames(s) + [s.frameCount + 1]
      && Frames(r.files) == Frames(s.files) + [s.frameCount + 1]
  {
    AdvanceShape(cfg, s, t);
    WriteOutEffect(Advance(cfg, s, t));
  }

  /** 'c' while paused only moves to the next session and clears the tracker: no file is opened. */
  lemma ResumeOpensNothing(cfg: Setup, s: State, t: Tick)
    requires Valid(cfg, s) && s.status == Running && s.paused && t.key == 'c' && !s.writer
    ensures var r := Step(cfg, s, t);
      r.status == Running && r.frameCount == s.frameCount + 1
      && r.session == s.session + 1 && !r.paused && !r.track.tracking && r.files == s.files
      && r.files.video.None? && r.files.log.None?
  {
  }

  /** The stationary rule: a usable reply drops the tracker exactly when the centre is unchanged for more than 3 s. */
  lemma StationaryRelease(cfg: Setup, s: State, t: Tick)
    requires s.status == Running && !s.paused && TrackerConsistent(s.track) && Usable(s.track, t)
    ensures var c := Centre(t.reply.box);
      var still := s.track.lastPosition == Some(c);
      var k := TrackTick(cfg, s.(frameCount := s.frameCount + 1), t).track;
      (!k.tracking <==> still && t.now - s.track.stationaryStart.value > STATIONARY_THRESHOLD)
      && (!still ==> k.stationaryStart == Some(t.now))
      && k.lastPosition == Some(c)
  {
  }

  /** 'm' closes both files and pauses; the writer stays bound unless the correction is in place. */
  lemma PauseKeyStep(cfg: Setup, s: State, t: Tick)
    requires Valid(cfg, s) && s.status == Running && t.key == 'm' && (s.writer ==> s.files.log.Some?)
    ensures var r := Step(cfg, s, t);
      r.status == Running && r.paused && r.files.video.None? && r.files.log.None?
      && r.frameCount == s.frameCount + 1 && r.session == s.session
      && (s.writer ==> r.writer == !cfg.unbindOnPause) && (cfg.unbindOnPause ==> !r.writer)
  {
    AdvanceShape(cfg, s, t);
    WriteOutEffect(Advance(cfg, s, t));
    CloseAllEffect(WriteOut(Advance(cfg, s, t)).files);
  }

  /** A paused tick with the writer bound to the closed log fails at its row write. */
  lemma PausedTickCrashes(cfg: Setup, s: State, t: Tick)
    requires s.status == Running && s.paused && s.writer && s.files.log.None?
    ensures Step(cfg, s, t).status == Crashed
  {
    assert Advance(cfg, s, t) == s.(frameCount := s.frameCount + 1);
  }

  /**
   * As written: once a session's files are open, 'm' closes the log but keeps the writer,
   * and the next tick, whatever it holds, fails writing its row.
   */
  lemma PauseThenTickCrashes(cfg: Setup, s: State, t: Tick, t': Tick)
    requires !cfg.unbindOnPause && Valid(cfg, s) && s.status == Running && s.writer && s.files.log.Some?
    requires t.key == 'm'
    ensures Step(cfg, s, t).status == Running && Step(cfg, Step(cfg, s, t), t').status == Crashed
  {
    PauseKeyStep(cfg, s, t);
    PausedTickCrashes(cfg, Step(cfg, s, t), t');
  }

  /** A concrete run: detect in tick 1, pause in tick 2, and tick 3 fails. */
  lemma PauseCrashExample(t: Tick)
    requires t.contours == [Contour(600.0, 600.0, 320, 240, Box(308, 228, 25, 25))]
    ensures var cfg := Setup(Config("20240101_120000", "1"), false);
      var ts := [t.(key := ' '), t.(key := 'm'), t.(key := ' ')];
      Run(cfg, Init(), ts[..2]).status == Running && Run(cfg, Init(), ts).status == Crashed
  {
    var cfg := Setup(Config("20240101_120000", "1"), false);
    var ts := [t.(key := ' '), t.(key := 'm'), t.(key := ' ')];
    assert IsFirstLargest(t.contours, 0, Some(MIN_AREA));
    MovingBboxJudgesLargestOnly(t.contours, MIN_AREA, Some(NO_TRACK_ZONE_WIDTH));
    RunOneMore(cfg, Init(), ts, 0);
    RunOneMore(cfg, Init(), ts, 1);
    RunOneMore(cfg, Init(), ts, 2);
    assert ts[..0] == [] && ts[..3] == ts;
    var r1 := Run(cfg, Init(), ts[..1]);
    DetectionOpensSession(cfg, Init(), ts[0]);
    RunKeepsInvariants(cfg, ts[..1]);
    PauseThenTickCrashes(cfg, r1, ts[1], ts[2]);
  }

  /** Corrected: with the writer dropped at pause, no run ever fails on a closed log. */
  lemma {:induction false} CorrectedNeverCrashes(cfg: Setup, ts: seq<Tick>)
    requires cfg.unbindOnPause
    ensures Run(cfg, Init(), ts).status != Crashed
  {
    if |ts| > 0 {
      var s := Run(cfg, Init(), ts[..|ts| - 1]);
      CorrectedNeverCrashes(cfg, ts[..|ts| - 1]);
      RunKeepsInvariants(cfg, ts[..|ts| - 1]);
      CorrectedStepNeverCrashes(cfg, s, ts[|ts| - 1]);
    }
  }

  /** Corrected: after a pause and a resume, the next detection opens files named for the new session. */
  lemma CorrectedResumeReopens(cfg: Setup, s: State, t1: Tick, t2: Tick, t3: Tick)
    requires cfg.unbindOnPause && Valid(cfg, s) && s.status == Running && !s.paused
    requires t1.key == 'm' && t2.key == 'c' && t3.key == ' '
    requires FindMovingObjectBbox(t3.contours, MIN_AREA, Some(NO_TRACK_ZONE_WIDTH)).Some?
    ensures var r := Step(cfg, Step(cfg, Step(cfg, s, t1), t2), t3);
      r.status == Running && r.session == s.session + 1
      && r.files.video == Some(VideoFile(VideoName(cfg.names, s.session + 1), [s.frameCount + 3]))
      && r.files.log.Some? && r.files.log.value.name == LogName(cfg.names, s.session + 1)
  {
    var r1 := Step(cfg, s, t1);
    PauseKeyStep(cfg, s, t1);
    StepKeepsInvariants(cfg, s, t1);
    var r2 := Step(cfg, r1, t2);
    ResumeOpensNothing(cfg, r1, t2);
    DetectionOpensSession(cfg, r2, t3);
  }

  // ---------------------------------------------------------------------------------
  // The loop as the script runs it

  /** The variables of `main()` after the space bar. */
  class Recorder {
    var tracking: bool
    var lastPosition: Option<Point>
    var stationaryStart: Option<real>
    var zone: int
    var center: bool
    var paused: bool
    var session: nat
    var frameCount: nat
    var files: Recording<Row>
    var writer: bool
    var status: Status

    function Snapshot(): State
      reads this
    {
      State(Track(tracking, lastPosition, stationaryStart), zone, center, paused, session, frameCount,
            files, writer, status)
    }

    constructor ()
      ensures Snapshot() == Init()
    {
      tracking, lastPosition, stationaryStart := false, None, None;
      zone, center, paused := 0, false, false;
      session, frameCount := 1, 0;
      files := Recording(None, None, [], []);
      writer, status := false, Running;
    }

    /** Without a tracker, detect; a detection with no writer open opens the session's pair. */
    method StartTracker(cfg: Setup, t: Tick)
      modifies this
      ensures Snapshot() == var o := OpenLazily(cfg, old(Snapshot()), t); o.(track := Detect(old(Snapshot()).track, t))
    {
      if !tracking {
        var bbox := FindMovingObjectBbox(t.contours, MIN_AREA, Some(NO_TRACK_ZONE_WIDTH));
        if bbox.Some? {
          if files.video.None? {
            files := OpenNext(files, VideoName(cfg.names, session), LogName(cfg.names, session), HEADER);
            writer := true;
          }
          tracking := true;
          stationaryStart := Some(t.now);
        }
      }
    }

    /** The stationary rule on the tracker variables. */
    method CheckStationary(c: Point, now: real)
      modifies this
      ensures Snapshot() == old(Snapshot()).(track := Follow(old(Snapshot()).track, c, now))
    {
      if lastPosition == Some(c) && stationaryStart.Some? {
        if now - stationaryStart.value > STATIONARY_THRESHOLD {
          tracking := false;
        }
      } else if lastPosition != Some(c) {
        stationaryStart := Some(now);
      }
      lastPosition := Some(c);
    }

    /** Ask the tracker, refuse a box centred in an edge band, classify or drop. */
    method UpdateTracker(t: Tick)
      modifies this
      ensures Snapshot() == Update(old(Snapshot()), t)
    {
      var c := Centre(t.reply.box);
      var success := tracking && t.reply.ok;
      if success && InNoTrackZone(c.x, NO_TRACK_ZONE_WIDTH, WIDTH) {
        success := false;
      }
      if success {
        zone, center := DeterminePiezone(c.x, c.y), InCenter(c.x, c.y, CENTER_RADIUS);
        CheckStationary(c, t.now);
      } else {
        zone, center := 0, false;
        tracking := false;
      }
    }

    /** The body of `if not paused`. */
    method TrackObject(cfg: Setup, t: Tick)
      modifies this
      ensures Snapshot() == TrackTick(cfg, old(Snapshot()), t)
    {
      StartTracker(cfg, t);
      UpdateTracker(t);
    }

    /** `frame_count += 1`, then the body of `if not paused`. */
    method CountAndTrack(cfg: Setup, t: Tick)
      modifies this
      ensures Snapshot() == Advance(cfg, old(Snapshot()), t)
    {
      ghost var before := Snapshot();
      frameCount := frameCount + 1;
      assert Snapshot() == before.(frameCount := before.frameCount + 1);
      if !paused {
        TrackObject(cfg, t);
      }
    }

    /** Write the frame and the row; a bound writer on a closed log fails. */
    method Write()
      modifies this
      ensures Snapshot() == WriteOut(old(Snapshot()))
    {
      files := PutFrame(files, frameCount);
      if writer {
        if files.log.None? {
          status := Crashed;
        } else {
          files := PutRow(files, Row(frameCount, zone, center));
        }
      }
    }

    /** The key handling; 'q' only ends the loop, the files are closed after it. */
    method HandleKeyPress(cfg: Setup, key: char)
      modifies this
      ensures key == 'q' ==> Snapshot() == old(Snapshot()).(status := Quit)
      ensures key != 'q' ==> Snapshot() == HandleKey(cfg, old(Snapshot()), key) && status == old(status)
    {
      if key == 'q' {
        status := Quit;
      } else if key == 'm' {
        paused := true;
        files := CloseAll(files);
        if cfg.unbindOnPause {
          writer := false;
        }
      } else if key == 'c' && paused {
        paused := false;
        session := session + 1;
        tracking := false;
      }
    }

    /** The loop body up to the key: count, track unless paused, write. */
    method TrackAndWrite(cfg: Setup, t: Tick)
      modifies this
      ensures Snapshot() == WriteOut(Advance(cfg, old(Snapshot()), t))
    {
      CountAndTrack(cfg, t);
      Write();
    }

    /** One pass of the loop body; on 'q' the files are still to be closed. */
    method RunTick(cfg: Setup, t: Tick)
      requires status == Running
      modifies this
      ensures status != Quit ==> Snapshot() == Step(cfg, old(Snapshot()), t)
      ensures status == Quit ==> Snapshot().(files := CloseAll(files)) == Step(cfg, old(Snapshot()), t)
    {
      ghost var s0 := Snapshot();
      TrackAndWrite(cfg, t);
      ghost var s3 := Snapshot();
      if status != Crashed {
        HandleKeyPress(cfg, t.key);
        if t.key == 'q' {
          QuitStep(cfg, s0, t, s3);
        }
      }
    }

    /** After the loop: release the writer and close the log. */
    method Teardown()
      modifies this
      ensures Snapshot() == old(Snapshot()).(files := CloseAll(old(files)))
    {
      files := CloseAll(files);
    }
  }

  /** `main()` after the space bar: ticks until 'q' or a failed write; the teardown runs only after 'q'. */
  method MainLoop(cfg: Setup, ticks: seq<Tick>) returns (final: State)
    ensures final == Run(cfg, Init(), ticks)
  {
    var rec := new Recorder();
    assert ticks[..0] == [];
    var i := 0;
    while i < |ticks|
      invariant 0 <= i <= |ticks| && rec.status == Running
      invariant rec.Snapshot() == Run(cfg, Init(), ticks[..i])
    {
      RunOneMore(cfg, Init(), ticks, i);
      var t := ticks[i];
      rec.RunTick(cfg, t);
      i := i + 1;
      if rec.status != Running {
        break;
      }
    }
    if rec.status == Quit {
      rec.Teardown();
    }
    if rec.status != Running {
      RunAfterStop(cfg, Init(), ticks, i);
    } else {
      assert ticks[..i] == ticks;
    }
    final := rec.Snapshot();
  }
}
