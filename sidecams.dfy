/**
 * The side-camera recorders. Each pass of the loop may start or stop a take; while a take
 * is being recorded, every pass writes one frame and one log row numbered from 1. LED 18
 * mirrors the recording flag. The four scripts differ only in what starts and stops a take:
 *
 *  - Sidecam4: the 't' key toggles, 'q' leaves the loop;
 *  - Sidecam2: input 15, read once for the start test and again for the stop test;
 *  - Sidecam3: `simulated OR input 15`, read once per pass;
 *  - Sidecam1: as Sidecam2, but the loop writes no frames and handles no video file.
 */
module Sidecams {
  import opened Wrappers
  import opened Text
  import opened Sinks

  datatype Variant = Sidecam4 | Sidecam2 | Sidecam3 | Sidecam1

  /** A log row: the frame number and the capture time. */
  type Row = (nat, string)

  const HEADER: seq<string> := ["Frame Number", "Timestamp"]

  /**
   * One pass: the key (Sidecam4), the first and second reads of input 15, the simulated
   * input (Sidecam3), the clock when a take starts and the capture-time text of the row.
   */
  datatype Tick = Tick(key: char, first: bool, second: bool, simulated: bool, now: DateTime, capture: string)

  predicate ValidTicks(ticks: seq<Tick>) {
    forall k :: 0 <= k < |ticks| ==> ValidTime(ticks[k].now)
  }

  /** `recording`, `frame_number`, the level of LED 18, the files and whether the loop runs. */
  datatype State = State(recording: bool, frameNumber: nat, led: bool, files: Recording<Row>, running: bool)

  function Init(): State {
    State(false, 0, false, Recording(None, None, [], []), true)
  }

  /** `f"{timestamp}_camera_1.mp4"` */
  function VideoName(now: DateTime): string
    requires ValidTime(now)
  {
    Compact(now) + "_camera_1.mp4"
  }

  /** `f"{timestamp}_camera_1_log.csv"` */
  function LogName(now: DateTime): string
    requires ValidTime(now)
  {
    Compact(now) + "_camera_1_log.csv"
  }

  /** The files a start opens: a writer and a log with its header, the log alone for Sidecam1. */
  function OpenTake(v: Variant, files: Recording<Row>, now: DateTime): Recording<Row>
    requires ValidTime(now)
  {
    if v == Sidecam1 then files.(log := Some(LogFile(LogName(now), HEADER, [])))
    else OpenNext(files, VideoName(now), LogName(now), HEADER)
  }

  /** Start recording: open the take, LED 18 HIGH, `frame_number = 0`. */
  function Start(v: Variant, s: State, now: DateTime): State
    requires ValidTime(now)
  {
    s.(recording := true, frameNumber := 0, led := true, files := OpenTake(v, s.files, now))
  }

  /** Stop recording: release the writer, LED 18 LOW, close the log. */
  function Stop(s: State): State {
    s.(recording := false, led := false, files := CloseAll(s.files))
  }

  /** The start or stop decision of one pass. */
  function Trigger(v: Variant, s: State, t: Tick): State
    requires ValidTime(t.now)
  {
    match v
    case Sidecam4 =>
      if t.key == 't' then (if s.recording then Stop(s) else Start(v, s, t.now)) else s
    case Sidecam3 =>
      var high := t.simulated || t.first;
      if high && !s.recording then Start(v, s, t.now)
      else if !high && s.recording then Stop(s)
      else s
    case _ =>
      if t.first && !s.recording then Start(v, s, t.now)
      else if !t.second && s.recording then Stop(s)
      else s
  }

  /** While recording: write the frame, count it, write the row with the new number. */
  function Record(v: Variant, s: State, capture: string): State {
    if !s.recording then s
    else
      var n := s.frameNumber + 1;
      var written := if v == Sidecam1 then s.files else PutFrame(s.files, n);
      s.(frameNumber := n, files := PutRow(written, (n, capture)))
  }

  function Step(v: Variant, s: State, t: Tick): State
    requires ValidTime(t.now)
  {
    if !s.running then s
    else if v == Sidecam4 && t.key != 't' && t.key == 'q' then s.(running := false)
    else Record(v, Trigger(v, s, t), t.capture)
  }

  function Run(v: Variant, s: State, ticks: seq<Tick>): State
    requires ValidTicks(ticks)
  {
    if |ticks| == 0 then s else Step(v, Run(v, s, ticks[..|ticks| - 1]), ticks[|ticks| - 1])
  }

  /** The `finally` or `KeyboardInterrupt` handler: stop the take if one is being recorded. */
  function Finish(s: State): State {
    if s.recording then Stop(s) else s
  }

  /** The whole script: the loop over the passes, then the exit handler. */
  function Session(v: Variant, ticks: seq<Tick>): State
    requires ValidTicks(ticks)
  {
    Finish(Run(v, Init(), ticks))
  }

  lemma RunOneMore(v: Variant, s: State, ticks: seq<Tick>, i: nat)
    requires i < |ticks| && ValidTicks(ticks)
    ensures ValidTicks(ticks[..i]) && ValidTicks(ticks[..i + 1]) && ValidTime(ticks[i].now)
    ensures Run(v, s, ticks[..i + 1]) == Step(v, Run(v, s, ticks[..i]), ticks[i])
  {
    assert ticks[..i + 1][..i] == ticks[..i];
  }

  lemma {:induction false} RunAfterQuit(v: Variant, s: State, ticks: seq<Tick>, i: nat)
    requires i <= |ticks| && ValidTicks(ticks)
    requires ValidTicks(ticks[..i]) && !Run(v, s, ticks[..i]).running
    ensures Run(v, s, ticks) == Run(v, s, ticks[..i])
    decreases |ticks| - i
  {
    if i < |ticks| {
      RunOneMore(v, s, ticks, i);
      RunAfterQuit(v, s, ticks, i + 1);
    } else {
      assert ticks[..i] == ticks;
    }
  }

  /** The start/stop branch of one pass, on the script's locals. */
  method TriggerPass(v: Variant, recording: bool, frameNumber: nat, led: bool, files: Recording<Row>, t: Tick)
    returns (recording': bool, frameNumber': nat, led': bool, files': Recording<Row>)
    requires ValidTime(t.now)
    ensures State(recording', frameNumber', led', files', true) == Trigger(v, State(recording, frameNumber, led, files, true), t)
  {
    recording', frameNumber', led', files' := recording, frameNumber, led, files;
    var start, stop := false, false;
    if v == Sidecam4 {
      start, stop := t.key == 't' && !recording, t.key == 't' && recording;
    } else if v == Sidecam3 {
      var high := t.simulated || t.first;
      start, stop := high && !recording, !high && recording;
    } else {
      start := t.first && !recording;
      stop := !start && !t.second && recording;
    }
    if start {
      files' := OpenTake(v, files, t.now);
      led' := true;
      recording' := true;
      frameNumber' := 0;
    } else if stop {
      files' := CloseAll(files);
      led' := false;
      recording' := false;
    }
  }

  /** The `if recording:` block of one pass, on the script's locals. */
  method RecordPass(v: Variant, recording: bool, frameNumber: nat, led: bool, files: Recording<Row>, capture: string)
    returns (frameNumber': nat, files': Recording<Row>)
    ensures State(recording, frameNumber', led, files', true) == Record(v, State(recording, frameNumber, led, files, true), capture)
  {
    frameNumber', files' := frameNumber, files;
    if recording {
      if v != Sidecam1 {
        files' := PutFrame(files', frameNumber' + 1);
      }
      frameNumber' := frameNumber' + 1;
      files' := PutRow(files', (frameNumber', capture));
    }
  }

  /** The script as written: its loop with the Python locals, then the exit handler. */
  method SidecamLoop(v: Variant, ticks: seq<Tick>) returns (final: State)
    requires ValidTicks(ticks)
    ensures final == Session(v, ticks)
  {
    var recording, frameNumber, led := false, 0, false;
    var files: Recording<Row> := Recording(None, None, [], []);
    var running := true;
    assert ticks[..0] == [];
    var i := 0;
    while i < |ticks| && running
      invariant 0 <= i <= |ticks|
      invariant ValidTicks(ticks[..i])
      invariant State(recording, frameNumber, led, files, running) == Run(v, Init(), ticks[..i])
    {
      RunOneMore(v, Init(), ticks, i);
      var t := ticks[i];
      if v == Sidecam4 && t.key != 't' && t.key == 'q' {
        running := false;
      } else {
        recording, frameNumber, led, files := TriggerPass(v, recording, frameNumber, led, files, t);
        frameNumber, files := RecordPass(v, recording, frameNumber, led, files, t.capture);
      }
      i := i + 1;
    }
    if !running {
      RunAfterQuit(v, Init(), ticks, i);
    } else {
      assert ticks[..i] == ticks;
    }
    if recording {
      files := CloseAll(files);
      led := false;
      recording := false;
    }
    final := State(recording, frameNumber, led, files, running);
  }

  // ---------------------------------------------------------------------------------
  // Invariant: LED 18 mirrors recording, a take is open exactly while recording, and
  // every take's rows are numbered 1, 2, ... with the frames written alongside them.

  predicate Numbered(rows: seq<Row>) {
    forall i :: 0 <= i < |rows| ==> rows[i].0 == i + 1
  }

  /** One frame per row, carrying the row's number. */
  predicate FramesMatch(frames: seq<nat>, rows: seq<Row>) {
    |frames| == |rows| && forall i :: 0 <= i < |frames| ==> frames[i] == rows[i].0
  }

  predicate OpenTakeValid(v: Variant, s: State) {
    s.files.log.Some? && s.files.log.value.header == HEADER
    && |s.files.log.value.rows| == s.frameNumber && Numbered(s.files.log.value.rows)
    && (v != Sidecam1 ==> s.files.video.Some? && FramesMatch(s.files.video.value.frames, s.files.log.value.rows))
  }

  predicate SavedValid(v: Variant, files: Recording<Row>) {
    (forall k :: 0 <= k < |files.savedLogs| ==> files.savedLogs[k].header == HEADER && Numbered(files.savedLogs[k].rows))
    && (v == Sidecam1 ==> files.video.None? && files.savedVideos == [])
    && (v != Sidecam1 ==>
          |files.savedVideos| == |files.savedLogs|
          && forall k :: 0 <= k < |files.savedLogs| ==> FramesMatch(files.savedVideos[k].frames, files.savedLogs[k].rows))
  }

  predicate Valid(v: Variant, s: State) {
    s.led == s.recording
    && (s.recording ==> OpenTakeValid(v, s))
    && (!s.recording ==> s.files.log.None? && s.files.video.None?)
    && SavedValid(v, s.files)
  }

  lemma StartKeepsValid(v: Variant, s: State, now: DateTime)
    requires ValidTime(now) && Valid(v, s) && !s.recording
    ensures Valid(v, Start(v, s, now))
  {
  }

  lemma StopKeepsValid(v: Variant, s: State)
    requires Valid(v, s) && s.recording
    ensures Valid(v, Stop(s))
  {
    var f := CloseAll(s.files);
    assert f.savedLogs == s.files.savedLogs + [s.files.log.value];
    if v != Sidecam1 {
      assert f.savedVideos == s.files.savedVideos + [s.files.video.value];
    }
  }

  lemma RecordKeepsValid(v: Variant, s: State, capture: string)
    requires Valid(v, s)
    ensures Valid(v, Record(v, s, capture))
  {
  }

  lemma StepKeepsValid(v: Variant, s: State, t: Tick)
    requires ValidTime(t.now) && Valid(v, s)
    ensures Valid(v, Step(v, s, t))
  {
    if s.running && !(v == Sidecam4 && t.key != 't' && t.key == 'q') {
      var r := Trigger(v, s, t);
      if r.recording && !s.recording {
        StartKeepsValid(v, s, t.now);
      } else if !r.recording && s.recording {
        StopKeepsValid(v, s);
      }
      RecordKeepsValid(v, r, t.capture);
    }
  }

  lemma {:induction false} RunKeepsValid(v: Variant, ticks: seq<Tick>)
    requires ValidTicks(ticks)
    ensures Valid(v, Run(v, Init(), ticks))
  {
    if |ticks| > 0 {
      var init := ticks[..|ticks| - 1];
      assert ValidTicks(init);
      RunKeepsValid(v, init);
      StepKeepsValid(v, Run(v, Init(), init), ticks[|ticks| - 1]);
    }
  }

  /** At exit nothing is left open, LED 18 is LOW, and every take saved is numbered from 1 with one frame per row. */
  lemma SessionClosesAll(v: Variant, ticks: seq<Tick>)
    requires ValidTicks(ticks)
    ensures var r := Session(v, ticks);
      !r.recording && !r.led && r.files.video.None? && r.files.log.None? && SavedValid(v, r.files)
  {
    RunKeepsValid(v, ticks);
    var s := Run(v, Init(), ticks);
    if s.recording {
      StopKeepsValid(v, s);
    }
  }

  // ---------------------------------------------------------------------------------
  // What starts and stops a take

  /** Sidecam4: 't' toggles recording, 'q' leaves the loop with nothing written, any other key keeps the state. */
  lemma ToggleRule(s: State, t: Tick)
    requires ValidTime(t.now) && s.running
    ensures var r := Step(Sidecam4, s, t);
      (t.key == 't' ==> r.recording == !s.recording && r.running)
      && (t.key == 'q' ==> r == s.(running := false))
      && (t.key != 't' && t.key != 'q' ==> r.recording == s.recording && r.running)
  {
  }

  /**
   * Sidecam2 and Sidecam1: from idle a take starts exactly when the first read is high;
   * while recording it stops exactly when the second read is low, whatever the first said.
   */
  lemma EdgeRule(v: Variant, s: State, t: Tick)
    requires ValidTime(t.now) && s.running && (v == Sidecam2 || v == Sidecam1)
    ensures !s.recording ==> (Step(v, s, t).recording <==> t.first)
    ensures s.recording ==> (Step(v, s, t).recording <==> t.second)
  {
  }

  /** Sidecam3: after every pass, recording equals the effective input `simulated OR input 15`. */
  lemma FollowsInput(s: State, t: Tick)
    requires ValidTime(t.now) && s.running
    ensures Step(Sidecam3, s, t).recording == (t.simulated || t.first)
  {
  }

  /**
   * A start opens a fresh take named after the clock and records its first frame in the
   * same pass: the log holds the header and row 1.
   */
  lemma StartWritesRowOne(v: Variant, s: State, t: Tick)
    requires ValidTime(t.now) && Valid(v, s) && s.running && !s.recording
    requires Trigger(v, s, t).recording && !(v == Sidecam4 && t.key == 'q')
    ensures var r := Step(v, s, t);
      r.frameNumber == 1
      && r.files.log == Some(LogFile(LogName(t.now), HEADER, [(1, t.capture)]))
      && (v != Sidecam1 ==> r.files.video == Some(VideoFile(VideoName(t.now), [1])))
      && r.files.savedLogs == s.files.savedLogs && r.files.savedVideos == s.files.savedVideos
  {
    var started := Start(v, s, t.now);
    assert Trigger(v, s, t) == started;
    assert Step(v, s, t) == Record(v, started, t.capture);
    var noRows: seq<Row> := [];
    var noFrames: seq<nat> := [];
    assert noRows + [(1, t.capture)] == [(1, t.capture)] && noFrames + [1] == [1];
  }

  /**
   * A recording pass adds exactly one row after all earlier rows, numbered one past the
   * last, and (except Sidecam1) one frame with the same number.
   */
  lemma RecordWritesOne(v: Variant, s: State, capture: string)
    requires Valid(v, s) && s.recording
    ensures var r := Record(v, s, capture);
      Rows(r.files) == Rows(s.files) + [(s.frameNumber + 1, capture)]
      && Frames(r.files) == Frames(s.files) + (if v == Sidecam1 then [] else [s.frameNumber + 1])
      && r.frameNumber == s.frameNumber + 1
  {
    var n := s.frameNumber + 1;
    var written := if v == Sidecam1 then s.files else PutFrame(s.files, n);
    if v != Sidecam1 {
      PutFrameEffect(s.files, n);
    }
    PutRowEffect(written, (n, capture));
  }

  /** An idle pass writes nothing. */
  lemma IdleWritesNothing(v: Variant, s: State, capture: string)
    requires !s.recording
    ensures Record(v, s, capture) == s
  {
  }

  /** Sidecam1 never writes a frame and never has a video file. */
  lemma LogOnly(ticks: seq<Tick>)
    requires ValidTicks(ticks)
    ensures Frames(Session(Sidecam1, ticks).files) == []
  {
    SessionClosesAll(Sidecam1, ticks);
  }
}
