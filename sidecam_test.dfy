/**
 * sidecam_testV1: recording starts at launch and stops at exit. `start_record` and
 * `stop_record` guard the camera call and the event log with one `try`; the `recording`
 * flag changes only when both succeed. Whether each call succeeds is an input.
 */
module SidecamTest {
  import opened Wrappers
  import opened Text

  const HEADER: seq<string> := ["LED State", "Timestamp"]

  /** One call of `start_record` or `stop_record`: the clock and whether the camera call and the log write succeed. */
  datatype Attempt = Attempt(at: DateTime, cameraOk: bool, logOk: bool)

  /**
   * The globals `recording` and `on_time`, whether the camera is encoding, the videos started
   * and the rows this run appended to the log.
   */
  datatype Globals = Globals(recording: bool, onTime: Option<DateTime>, encoding: bool,
                             videos: seq<string>, rows: seq<seq<string>>)

  /** `f"log_{now:%Y-%m-%d_%H-%M-%S}.csv"` */
  function LogName(startup: DateTime): string
    requires ValidTime(startup)
  {
    "log_" + Dashed(startup) + ".csv"
  }

  /** `f"video_{on_time:%Y-%m-%d_%H-%M-%S.%f}.h264"` */
  function VideoName(onTime: DateTime): string
    requires ValidTime(onTime)
  {
    "video_" + DashedMicros(onTime) + ".h264"
  }

  /** `log_event(state, timestamp)`: one row with the event and its `%Y-%m-%d %H_%M_%S.%f` time. */
  function EventRow(state: string, at: DateTime): seq<string>
    requires ValidTime(at)
  {
    [state, EventStamp(at)]
  }

  /** Before the first call: the log opened for append, its header written only if the file is new. */
  function Prepared(fileExists: bool): Globals {
    Globals(false, None, false, [], if fileExists then [] else [HEADER])
  }

  /** `start_record`: `on_time` is set first; `recording` becomes true only after both calls succeed. */
  function StartRecord(g: Globals, a: Attempt): Globals
    requires ValidTime(a.at)
  {
    var timed := g.(onTime := Some(a.at));
    if !a.cameraOk then timed
    else
      var started := timed.(encoding := true, videos := timed.videos + [VideoName(a.at)]);
      if !a.logOk then started
      else started.(rows := started.rows + [EventRow("ON", a.at)], recording := true)
  }

  /** `stop_record`: `recording` becomes false only after both calls succeed. */
  function StopRecord(g: Globals, a: Attempt): Globals
    requires ValidTime(a.at)
  {
    if !a.cameraOk then g
    else
      var stopped := g.(encoding := false);
      if !a.logOk then stopped
      else stopped.(rows := stopped.rows + [EventRow("OFF", a.at)], recording := false)
  }

  /** The `finally` block: stop only if recording. */
  function Exit(g: Globals, a: Attempt): Globals
    requires ValidTime(a.at)
  {
    if g.recording then StopRecord(g, a) else g
  }

  /** The script: prepare the log, start at launch, stop at exit. */
  function Program(fileExists: bool, start: Attempt, stop: Attempt): Globals
    requires ValidTime(start.at) && ValidTime(stop.at)
  {
    Exit(StartRecord(Prepared(fileExists), start), stop)
  }

  /** The script's globals, as fields that `start_record` and `stop_record` assign. */
  class Script {
    const logName: string
    var recording: bool
    var onTime: Option<DateTime>
    var encoding: bool
    var videos: seq<string>
    var rows: seq<seq<string>>

    function Snapshot(): Globals
      reads this
    {
      Globals(recording, onTime, encoding, videos, rows)
    }

    /** Module start-up: the log name from the clock; the header only when the file did not exist. */
    constructor (startup: DateTime, fileExists: bool)
      requires ValidTime(startup)
      ensures logName == LogName(startup) && Snapshot() == Prepared(fileExists)
    {
      logName := LogName(startup);
      recording, onTime, encoding, videos := false, None, false, [];
      rows := [];
      new;
      if !fileExists {
        rows := rows + [HEADER];
      }
    }

    /** `start_record(timestamp)` */
    method StartRecording(a: Attempt)
      requires ValidTime(a.at)
      modifies this
      ensures Snapshot() == StartRecord(old(Snapshot()), a)
    {
      onTime := Some(a.at);
      if a.cameraOk {
        encoding := true;
        videos := videos + [VideoName(a.at)];
        if a.logOk {
          rows := rows + [EventRow("ON", a.at)];
          recording := true;
        }
      }
    }

    /** `stop_record(timestamp)` */
    method StopRecording(a: Attempt)
      requires ValidTime(a.at)
      modifies this
      ensures Snapshot() == StopRecord(old(Snapshot()), a)
    {
      if a.cameraOk {
        encoding := false;
        if a.logOk {
          rows := rows + [EventRow("OFF", a.at)];
          recording := false;
        }
      }
    }
  }

  /** Runs the script on a fresh set of globals. */
  method RunScript(startup: DateTime, fileExists: bool, start: Attempt, stop: Attempt) returns (g: Globals)
    requires ValidTime(startup) && ValidTime(start.at) && ValidTime(stop.at)
    ensures g == Program(fileExists, start, stop)
  {
    var script := new Script(startup, fileExists);
    script.StartRecording(start);
    if script.recording {
      script.StopRecording(stop);
    }
    g := script.Snapshot();
  }

  // ---------------------------------------------------------------------------------
  // Properties

  /** The header is the first row exactly when the file is new, and it is never written again. */
  lemma HeaderOnlyIfNew(fileExists: bool, start: Attempt, stop: Attempt)
    requires ValidTime(start.at) && ValidTime(stop.at)
    ensures var rows := Program(fileExists, start, stop).rows;
      (|rows| > 0 && rows[0] == HEADER <==> !fileExists)
      && forall i :: 0 < i < |rows| ==> rows[i] != HEADER
  {
    var g := StartRecord(Prepared(fileExists), start);
    assert EventRow("ON", start.at)[0] != HEADER[0];
    assert EventRow("OFF", stop.at)[0] != HEADER[0];
    if g.recording {
      var r := StopRecord(g, stop);
      assert |r.rows| <= |g.rows| + 1;
    }
  }

  /** `on_time` is set whatever happens next. */
  lemma OnTimeFirst(g: Globals, a: Attempt)
    requires ValidTime(a.at)
    ensures StartRecord(g, a).onTime == Some(a.at)
  {
  }

  /**
   * From idle, `recording` becomes true exactly when the camera call and the log write both
   * succeed, and then the last row is the ON event at `on_time`.
   */
  lemma StartNeedsBoth(g: Globals, a: Attempt)
    requires ValidTime(a.at) && !g.recording
    ensures var r := StartRecord(g, a);
      (r.recording <==> a.cameraOk && a.logOk)
      && (r.recording ==> r.rows == g.rows + [EventRow("ON", a.at)] && r.videos == g.videos + [VideoName(a.at)])
  {
  }

  /** While recording, `recording` becomes false exactly when both calls succeed, after the OFF event is logged. */
  lemma StopNeedsBoth(g: Globals, a: Attempt)
    requires ValidTime(a.at) && g.recording
    ensures var r := StopRecord(g, a);
      (!r.recording <==> a.cameraOk && a.logOk)
      && (!r.recording ==> r.rows == g.rows + [EventRow("OFF", a.at)])
      && (r.recording ==> r.rows == g.rows)
  {
  }

  /** At exit, nothing happens unless the flag says recording. */
  lemma ExitOnlyIfRecording(g: Globals, a: Attempt)
    requires ValidTime(a.at) && !g.recording
    ensures Exit(g, a) == g
  {
  }

  /**
   * When the camera starts but the ON row cannot be written, the flag stays false while the
   * camera encodes, so the exit path never calls `stop_recording`.
   */
  lemma LogFailureLeavesEncoding(fileExists: bool, start: Attempt, stop: Attempt)
    requires ValidTime(start.at) && ValidTime(stop.at) && start.cameraOk && !start.logOk
    ensures var r := Program(fileExists, start, stop);
      r.encoding && !r.recording && r.rows == Prepared(fileExists).rows
  {
  }

  /** When both calls succeed at both ends, the log gets exactly an ON row and an OFF row after the header. */
  lemma CleanRun(fileExists: bool, start: Attempt, stop: Attempt)
    requires ValidTime(start.at) && ValidTime(stop.at)
    requires start.cameraOk && start.logOk && stop.cameraOk && stop.logOk
    ensures var r := Program(fileExists, start, stop);
      !r.recording && !r.encoding && r.videos == [VideoName(start.at)]
      && r.rows == Prepared(fileExists).rows + [EventRow("ON", start.at), EventRow("OFF", stop.at)]
  {
  }
}
