/**
 * Recordonly.py: records without tracking. At the space bar it opens session 1's video
 * and log, writes a start row (zone 99, centre 66, camera 7007) and drives all six camera
 * outputs HIGH; each unpaused tick then writes one frame and one row. 'm' pauses and
 * closes both files, 'c' resumes into the next session with new files, 'q' quits and
 * closes whatever is open. The LED thread started with each session reads `main`'s locals
 * as globals, so it ends at its first row without writing anything (`ThreadDiesAtOnce`).
 */
module Recordonly {
  import opened Wrappers
  import opened Gpio
  import opened Sinks
  import opened Sessions

  /** The module-level `zone` and `center`, which `main` never changes. */
  const ZONE: int := 99
  const CENTER: int := 66
  /** `cameratriggered` for the start row; every later row has 0. */
  const START_CAMERA: int := 7007

  const HEADER: seq<string> := ["Frame", "Timestamp", "LED state", "InCenter", "FPS", "Camera"]
  /** A resumed session's header spells the third column differently. */
  const RESUME_HEADER: seq<string> := ["Frame", "Timestamp", "LEDS State", "InCenter", "FPS", "Camera"]

  /** A data row, without its wall-clock timestamp and smoothed fps. */
  datatype Row = Row(frame: nat, zone: int, center: int, camera: int)

  function StartRow(): Row {
    Row(0, ZONE, CENTER, START_CAMERA)
  }

  function TickRow(frame: nat): Row {
    Row(frame, ZONE, CENTER, 0)
  }

  datatype State = State(
    pins: seq<bool>,          // cam1..cam6 output levels
    paused: bool,
    session: nat,
    frameCount: nat,
    threadRunning: bool,      // `led_thread_running`: the flag the LED thread loops on
    files: Recording<Row>,
    running: bool)

  /** After the space bar: session 1's files open with the start row, the LED thread started, all outputs HIGH. */
  function Init(cfg: Config): State {
    State(AllHigh(), false, 1, 0, true,
          PutRow(Opened(VideoName(cfg, 1), LogName(cfg, 1), HEADER), StartRow()), true)
  }

  /** The recording branch: one row, then one frame. */
  function Record(s: State): State {
    s.(files := PutFrame(PutRow(s.files, TickRow(s.frameCount)), s.frameCount))
  }

  function HandleKey(cfg: Config, s: State, key: char): State {
    if key == 'q' then
      s.(files := CloseAll(s.files), threadRunning := false, running := false)
    else if key == 'm' then
      s.(paused := true, files := CloseAll(s.files), threadRunning := false)
    else if key == 'c' && s.paused then
      var n := s.session + 1;
      s.(paused := false, session := n,
         files := OpenNext(s.files, VideoName(cfg, n), LogName(cfg, n), RESUME_HEADER), threadRunning := true)
    else s
  }

  /** Count the frame, and record it unless paused. */
  function Advance(s: State): State {
    var s1 := s.(frameCount := s.frameCount + 1);
    if s1.paused then s1 else Record(s1)
  }

  /** One tick, read as its key: advance, then handle the key. */
  function Step(cfg: Config, s: State, key: char): State {
    if !s.running then s else HandleKey(cfg, Advance(s), key)
  }

  function Run(cfg: Config, s: State, keys: seq<char>): State {
    if |keys| == 0 then s else Step(cfg, Run(cfg, s, keys[..|keys| - 1]), keys[|keys| - 1])
  }

  lemma RunOneMore(cfg: Config, s: State, keys: seq<char>, i: nat)
    requires i < |keys|
    ensures Run(cfg, s, keys[..i + 1]) == Step(cfg, Run(cfg, s, keys[..i]), keys[i])
  {
    assert keys[..i + 1][..i] == keys[..i];
  }

  lemma {:induction false} RunAfterQuit(cfg: Config, s: State, keys: seq<char>, i: nat)
    requires i <= |keys| && !Run(cfg, s, keys[..i]).running
    ensures Run(cfg, s, keys) == Run(cfg, s, keys[..i])
    decreases |keys| - i
  {
    if i < |keys| {
      assert keys[..i + 1][..i] == keys[..i];
      RunAfterQuit(cfg, s, keys, i + 1);
    } else {
      assert keys[..i] == keys;
    }
  }

  // ---------------------------------------------------------------------------------
  // Invariants

  function RowFrames(rows: seq<Row>): (fs: seq<nat>)
    ensures |fs| == |rows|
  {
    seq(|rows|, i requires 0 <= i < |rows| => rows[i].frame)
  }

  function LoggedFrames(s: State): seq<nat> {
    RowFrames(Rows(s.files))
  }

  /** The start row comes first; every later row is a tick row. */
  predicate RowsShaped(rows: seq<Row>) {
    |rows| >= 1 && rows[0] == StartRow() && forall i :: 1 <= i < |rows| ==> rows[i] == TickRow(rows[i].frame)
  }

  predicate FilesOpenWhileRecording(s: State) {
    var recording := s.running && !s.paused;
    s.files.video.Some? == recording && s.files.log.Some? == recording && s.threadRunning == recording
  }

  predicate NumberedInOrder(s: State) {
    StrictlyIncreasing(LoggedFrames(s)) && AllBelow(LoggedFrames(s), s.frameCount)
    && StrictlyIncreasing(Frames(s.files)) && AllBelow(Frames(s.files), s.frameCount)
  }

  predicate Valid(cfg: Config, s: State) {
    s.pins == AllHigh() && FilesOpenWhileRecording(s) && NumberedInOrder(s) && RowsShaped(Rows(s.files))
    && NamedSessions(GENERATED, cfg, s.files, s.session, HEADER, RESUME_HEADER)
  }

  lemma RowFramesAppend(rows: seq<Row>, r: Row)
    ensures RowFrames(rows + [r]) == RowFrames(rows) + [r.frame]
  {
  }

  lemma InitValid(cfg: Config)
    ensures Valid(cfg, Init(cfg))
  {
    var o := Opened<Row>(VideoName(cfg, 1), LogName(cfg, 1), HEADER);
    OpenedEffect<Row>(VideoName(cfg, 1), LogName(cfg, 1), HEADER);
    PutRowEffect(o, StartRow());
    RowFramesAppend(Rows(o), StartRow());
    assert Rows(o) + [StartRow()] == [StartRow()];
  }

  /** Recording adds one tick row and one frame, both numbered with the frame count, and renames nothing. */
  lemma RecordEffect(s: State)
    ensures var r := Record(s);
      Rows(r.files) == Rows(s.files) + (if s.files.log.Some? then [TickRow(s.frameCount)] else [])
      && Frames(r.files) == Frames(s.files) + (if s.files.video.Some? then [s.frameCount] else [])
      && VideoNames(r.files) == VideoNames(s.files) && LogHeads(r.files) == LogHeads(s.files)
      && r.files.video.Some? == s.files.video.Some? && r.files.log.Some? == s.files.log.Some?
  {
    var f := PutRow(s.files, TickRow(s.frameCount));
    PutRowEffect(s.files, TickRow(s.frameCount));
    PutFrameEffect(f, s.frameCount);
  }

  /** Recording keeps the rows shaped and numbered, the frames numbered, and the names as they were. */
  lemma RecordKeepsInvariants(cfg: Config, s: State)
    requires Valid(cfg, s) && s.running && !s.paused
    ensures Valid(cfg, Record(s.(frameCount := s.frameCount + 1)))
  {
    var s1 := s.(frameCount := s.frameCount + 1);
    RecordEffect(s1);
    RowFramesAppend(Rows(s.files), TickRow(s1.frameCount));
    IncreasingAppend(LoggedFrames(s), s.frameCount);
    IncreasingAppend(Frames(s.files), s.frameCount);
  }

  lemma AdvanceKeepsInvariants(cfg: Config, s: State)
    requires Valid(cfg, s) && s.running
    ensures Valid(cfg, Advance(s))
  {
    if !s.paused {
      RecordKeepsInvariants(cfg, s);
    }
  }

  lemma HandleKeyKeepsInvariants(cfg: Config, s: State, key: char)
    requires Valid(cfg, s) && s.running
    ensures Valid(cfg, HandleKey(cfg, s, key))
  {
    if key == 'q' || key == 'm' {
      CloseAllEffect(s.files);
    } else if key == 'c' && s.paused {
      var n := s.session + 1;
      OpenNextEffect(s.files, VideoName(cfg, n), LogName(cfg, n), RESUME_HEADER);
      SessionNamesGrow(GENERATED, cfg, s.session, HEADER, RESUME_HEADER);
    }
  }

  lemma StepKeepsInvariants(cfg: Config, s: State, key: char)
    requires Valid(cfg, s)
    ensures Valid(cfg, Step(cfg, s, key))
  {
    if s.running {
      AdvanceKeepsInvariants(cfg, s);
      HandleKeyKeepsInvariants(cfg, Advance(s), key);
    }
  }

  /** From the start row on, every state of a run keeps the invariants: the outputs in particular stay all HIGH. */
  lemma {:induction false} RunKeepsInvariants(cfg: Config, keys: seq<char>)
    ensures Valid(cfg, Run(cfg, Init(cfg), keys))
  {
    if |keys| == 0 {
      InitValid(cfg);
    } else {
      RunKeepsInvariants(cfg, keys[..|keys| - 1]);
      StepKeepsInvariants(cfg, Run(cfg, Init(cfg), keys[..|keys| - 1]), keys[|keys| - 1]);
    }
  }

  // ---------------------------------------------------------------------------------
  // Behaviour

  /** The start: outputs LOW at import and HIGH after the six writes; the first row after the header is the start row. */
  lemma StartState(cfg: Config)
    ensures ApplyAll(AllLow(), RaiseAllWrites()) == Init(cfg).pins
    ensures Init(cfg).files.log == Some(LogFile(LogName(cfg, 1), HEADER, [StartRow()]))
    ensures Init(cfg).files.video == Some(VideoFile(VideoName(cfg, 1), []))
  {
    RaiseAllEnds(AllLow());
    var noRows: seq<Row> := [];
    assert noRows + [StartRow()] == [StartRow()];
  }

  /** Keys other than a resume while paused keep every file, in order. */
  lemma KeyKeepsFiles(cfg: Config, s: State, key: char)
    requires !(key == 'c' && s.paused)
    ensures Rows(HandleKey(cfg, s, key).files) == Rows(s.files)
    ensures Frames(HandleKey(cfg, s, key).files) == Frames(s.files)
    ensures HandleKey(cfg, s, key).frameCount == s.frameCount
  {
    CloseAllEffect(s.files);
  }

  /** A tick while recording writes one tick row (camera 0) and one frame, numbered with the new frame count. */
  lemma RecordingTickWritesOne(cfg: Config, s: State, key: char)
    requires s.running && !s.paused && s.files.video.Some? && s.files.log.Some?
    ensures var r := Step(cfg, s, key);
      Rows(r.files) == Rows(s.files) + [TickRow(s.frameCount + 1)]
      && Frames(r.files) == Frames(s.files) + [s.frameCount + 1]
      && r.frameCount == s.frameCount + 1
  {
    var s1 := s.(frameCount := s.frameCount + 1);
    assert Advance(s) == Record(s1);
    RecordEffect(s1);
    KeyKeepsFiles(cfg, Advance(s), key);
  }

  /** A tick while paused counts the frame but writes nothing. */
  lemma PausedTickWritesNothing(cfg: Config, s: State, key: char)
    requires s.running && s.paused && s.files.video.None? && s.files.log.None?
    ensures var r := Step(cfg, s, key);
      Rows(r.files) == Rows(s.files) && Frames(r.files) == Frames(s.files) && r.frameCount == s.frameCount + 1
  {
    var s1 := s.(frameCount := s.frameCount + 1);
    assert Advance(s) == s1;
    if key == 'c' {
      var n := s.session + 1;
      OpenNextEffect(s.files, VideoName(cfg, n), LogName(cfg, n), RESUME_HEADER);
    } else {
      KeyKeepsFiles(cfg, s1, key);
    }
  }

  /** 'm' closes both files and clears the LED thread's flag; 'q' does the same and ends the run. */
  lemma PauseAndQuitClose(cfg: Config, s: State, key: char)
    requires Valid(cfg, s) && s.running && (key == 'm' || key == 'q')
    ensures var r := Step(cfg, s, key);
      r.files.video.None? && r.files.log.None? && !r.threadRunning
      && |r.files.savedVideos| == s.session && |r.files.savedLogs| == s.session
      && r.paused == (key == 'm' || s.paused) && r.running == (key == 'm')
  {
    StepKeepsInvariants(cfg, s, key);
  }

  /** 'c' while paused opens session n+1's pair with the "LEDS State" header and sets the LED thread's flag again. */
  lemma ResumeOpensNextSession(cfg: Config, s: State)
    requires s.running && s.paused
    ensures var r := Step(cfg, s, 'c');
      var n := s.session + 1;
      r.session == n && !r.paused && r.threadRunning
      && r.files.video == Some(VideoFile(VideoName(cfg, n), []))
      && r.files.log == Some(LogFile(LogName(cfg, n), RESUME_HEADER, []))
      && HEADER[2] == "LED state" && RESUME_HEADER[2] == "LEDS State"
  {
  }

  /** No two files of a run share a name. */
  lemma FilesNeverShareNames(cfg: Config, keys: seq<char>)
    ensures var f := Run(cfg, Init(cfg), keys).files;
      var ls, vs := Logs(f), Videos(f);
      (forall i, j :: 0 <= i < j < |ls| ==> ls[i].name != ls[j].name)
      && (forall i, j :: 0 <= i < j < |vs| ==> vs[i].name != vs[j].name)
      && (forall i, j :: 0 <= i < |ls| && 0 <= j < |vs| ==> ls[i].name != vs[j].name)
  {
    var s := Run(cfg, Init(cfg), keys);
    RunKeepsInvariants(cfg, keys);
    NamingsSeparable();
    NamedSessionsDistinct(GENERATED, cfg, s.files, s.session, HEADER, RESUME_HEADER);
  }

  // ---------------------------------------------------------------------------------
  // The LED thread

  /** What `led_flashing` reads at one `writerow`: `frame_count` and `cameratriggered` at that moment. */
  datatype Reading = Reading(frame: nat, camera: int)

  /** One half-cycle of `led_flashing`: the row it logs, then the level it drives LED_PIN to. */
  datatype Blink = Blink(row: Row, led: bool)

  /** The names `led_flashing` reads from its globals at each `writerow`; `zone` it assigns itself. */
  const THREAD_NAMES: set<string> := {"log_writer", "frame_count", "timestamp", "fps", "cameratriggered"}

  /** The script's module-level names. `main` assigns its own names, so they are its locals. */
  const MODULE_NAMES: set<string> := {
    "cv2", "np", "time", "datetime", "csv", "threading", "GPIO", "Picamera2", "Preview",
    "WIDTH", "HEIGHT", "FPS", "HEX_RADIUS", "CENTER_RADIUS", "LED_PIN", "FLASHDURATION",
    "cam1", "cam2", "cam3", "cam4", "cam5", "cam6", "lens_pos", "zone", "center",
    "led_thread", "led_thread_running", "led_flashing", "start_led_thread", "stop_led_thread",
    "initialize_camera", "generate_filename", "main"}

  /**
   * `led_flashing` while `led_thread_running` stays true, given the names its globals hold and
   * one reading per `writerow`: a zone-1 row and LED_PIN HIGH, then a zone-0 row and LED_PIN
   * LOW, and so on. When a name it reads is not a global, the first `writerow` raises
   * NameError before any row or level is written, and the thread ends.
   */
  function LedThread(globals: set<string>, readings: seq<Reading>): seq<Blink> {
    if !(THREAD_NAMES <= globals) then []
    else seq(|readings|, i requires 0 <= i < |readings| => HalfCycle(i, readings[i]))
  }

  /** The `i`-th write: state 1 and HIGH on even writes, state 0 and LOW on odd ones. */
  function HalfCycle(i: nat, r: Reading): Blink {
    var on := i % 2 == 0;
    Blink(Row(r.frame, if on then 1 else 0, CENTER, r.camera), on)
  }

  /** As written: `log_writer` is a local of `main`, so the thread logs no row and never lights the LED. */
  lemma ThreadDiesAtOnce(readings: seq<Reading>)
    ensures "log_writer" !in MODULE_NAMES && !(THREAD_NAMES <= MODULE_NAMES)
    ensures LedThread(MODULE_NAMES, readings) == []
  {
    assert "log_writer" in THREAD_NAMES;
  }

  /**
   * With `main`'s five names declared global, the thread logs one row per reading with that
   * reading's frame count and camera, the LED-state column alternating 1, 0, 1, …, and LED_PIN
   * is HIGH exactly after a row with state 1.
   */
  lemma CorrectedThreadBlinks(readings: seq<Reading>)
    ensures var trace := LedThread(MODULE_NAMES + THREAD_NAMES, readings);
      |trace| == |readings|
      && (forall i :: 0 <= i < |trace| ==>
            trace[i].row.frame == readings[i].frame && trace[i].row.camera == readings[i].camera
            && trace[i].row.center == CENTER && (trace[i].led <==> trace[i].row.zone == 1)
            && (trace[i].row.zone == 1 <==> i % 2 == 0) && 0 <= trace[i].row.zone <= 1)
      && (forall i :: 0 < i < |trace| ==> trace[i].led != trace[i - 1].led)
  {
    var trace := LedThread(MODULE_NAMES + THREAD_NAMES, readings);
    assert THREAD_NAMES <= MODULE_NAMES + THREAD_NAMES;
    assert forall i :: 0 <= i < |trace| ==> trace[i] == HalfCycle(i, readings[i]);
    forall i | 0 < i < |trace|
      ensures trace[i].led != trace[i - 1].led
    {
      HalfCyclesAlternate(i, readings[i], readings[i - 1]);
    }
  }

  lemma HalfCyclesAlternate(i: nat, r: Reading, q: Reading)
    requires i > 0
    ensures HalfCycle(i, r).led != HalfCycle(i - 1, q).led
  {
  }

  // ---------------------------------------------------------------------------------
  // The loop as the script runs it

  class Recorder {
    var pins: array<bool>
    var paused: bool
    var session: nat
    var frameCount: nat
    var threadRunning: bool
    var files: Recording<Row>
    var running: bool

    function Snapshot(): State
      reads this, pins
    {
      State(pins[..], paused, session, frameCount, threadRunning, files, running)
    }

    /** Import time sets the six outputs LOW; the space bar opens session 1, logs the start row and raises them all. */
    constructor (cfg: Config)
      ensures pins.Length == 6 && fresh(pins) && Snapshot() == Init(cfg)
    {
      pins := new bool[6](_ => false);
      paused, session, frameCount := false, 1, 0;
      var first := Opened(VideoName(cfg, 1), LogName(cfg, 1), HEADER);
      threadRunning := true;
      files := PutRow(first, StartRow());
      running := true;
      new;
      assert pins[..] == AllLow();
      WritePins(pins, RaiseAllWrites());
      RaiseAllEnds(AllLow());
    }

    /** `frame_count += 1`, then the row and the frame unless paused. */
    method CountAndRecord()
      modifies this
      ensures pins == old(pins)
      ensures Snapshot() == Advance(old(Snapshot()))
    {
      frameCount := frameCount + 1;
      if !paused {
        files := PutRow(files, TickRow(frameCount));
        files := PutFrame(files, frameCount);
      }
    }

    method Pause()
      modifies this
      ensures pins == old(pins)
      ensures Snapshot() == old(Snapshot()).(paused := true, files := CloseAll(old(files)), threadRunning := false)
    {
      paused := true;
      files := CloseAll(files);
      threadRunning := false;
    }

    method Resume(cfg: Config)
      modifies this
      ensures pins == old(pins)
      ensures var n := old(session) + 1;
        Snapshot() == old(Snapshot()).(paused := false, session := n, threadRunning := true,
                                       files := OpenNext(old(files), VideoName(cfg, n), LogName(cfg, n), RESUME_HEADER))
    {
      var n := session + 1;
      var next := OpenNext(files, VideoName(cfg, n), LogName(cfg, n), RESUME_HEADER);
      paused, session, files, threadRunning := false, n, next, true;
    }

    /** The key handling; 'q' only ends the loop, the files are closed after it. */
    method HandleKeyPress(cfg: Config, key: char)
      modifies this
      ensures pins == old(pins)
      ensures key == 'q' ==> Snapshot() == old(Snapshot()).(running := false)
      ensures key != 'q' ==> Snapshot() == HandleKey(cfg, old(Snapshot()), key)
    {
      if key == 'q' {
        running := false;
      } else if key == 'm' {
        Pause();
      } else if key == 'c' && paused {
        Resume(cfg);
      }
    }

    method Teardown()
      modifies this
      ensures pins == old(pins)
      ensures Snapshot() == old(Snapshot()).(files := CloseAll(old(files)), threadRunning := false)
    {
      files := CloseAll(files);
      threadRunning := false;
    }
  }

  /** `main()` after the space bar: ticks until 'q', then the files are closed and the LED thread's flag cleared. */
  method MainLoop(cfg: Config, keys: seq<char>) returns (final: State)
    ensures final == Run(cfg, Init(cfg), keys)
  {
    var rec := new Recorder(cfg);
    assert keys[..0] == [];
    var i := 0;
    while i < |keys|
      invariant 0 <= i <= |keys| && rec.pins.Length == 6 && fresh(rec.pins) && rec.running
      invariant rec.Snapshot() == Run(cfg, Init(cfg), keys[..i])
    {
      RunOneMore(cfg, Init(cfg), keys, i);
      var key := keys[i];
      rec.CountAndRecord();
      rec.HandleKeyPress(cfg, key);
      i := i + 1;
      if key == 'q' {
        break;
      }
    }
    if !rec.running {
      rec.Teardown();
      RunAfterQuit(cfg, Init(cfg), keys, i);
    } else {
      assert keys[..i] == keys;
    }
    final := rec.Snapshot();
  }
}
