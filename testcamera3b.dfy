/**
 * TestCamera3b: the encoder records from launch to `video_output_1.h264`; 'p' stops it and
 * moves the output name on to the next number, 't' starts it again on the current name.
 * The encoder is modelled by the calls made to it, in order.
 */
module TestCamera3b {
  import opened Wrappers
  import opened Text

  /** `f"video_output_{filenumber}.h264"` */
  function FileName(n: nat): string {
    "video_output_" + NatToString(n) + ".h264"
  }

  lemma FileNameInjective(m: nat, n: nat)
    requires FileName(m) == FileName(n)
    ensures m == n
  {
    var a, b := NatToString(m), NatToString(n);
    assert |a| == |b|;
    assert a == FileName(m)[13..13 + |a|];
    assert b == FileName(n)[13..13 + |b|];
    NatToStringInjective(m, n);
  }

  /** A call made to the encoder: `start_encoder(encoder, file)` or `stop_encoder()`. */
  datatype Call = StartEncoder(file: string) | StopEncoder

  /** One pass of the polling loop: whether 't' is held, then whether 'p' is held. */
  datatype Tick = Tick(t: bool, p: bool)

  /** `doingitsthing == 1`, `filenumber`, `output_file` and the encoder calls so far. */
  datatype State = State(recording: bool, fileNumber: nat, outputFile: string, calls: seq<Call>)

  /** Launch: file number 1, the encoder started on its file. */
  function Init(): State {
    State(true, 1, FileName(1), [StartEncoder(FileName(1))])
  }

  /** 't' acts only when stopped: start the encoder on `output_file`. */
  function PressT(s: State): State {
    if s.recording then s else s.(calls := s.calls + [StartEncoder(s.outputFile)], recording := true)
  }

  /** 'p' acts only when recording: stop, count the next file and name it. */
  function PressP(s: State): State {
    if !s.recording then s
    else s.(calls := s.calls + [StopEncoder], fileNumber := s.fileNumber + 1,
            outputFile := FileName(s.fileNumber + 1), recording := false)
  }

  function Step(s: State, t: Tick): State {
    var afterT := if t.t then PressT(s) else s;
    if t.p then PressP(afterT) else afterT
  }

  function Run(s: State, ticks: seq<Tick>): State {
    if |ticks| == 0 then s else Step(Run(s, ticks[..|ticks| - 1]), ticks[|ticks| - 1])
  }

  /** The exit path as written: `stop_encoder()` whatever the state. */
  function ExitAsWritten(s: State): State {
    s.(calls := s.calls + [StopEncoder])
  }

  /** The last line as written: `f"Video saved as {output_file}"`. */
  function MessageAsWritten(s: State): string {
    "Video saved as " + s.outputFile
  }

  lemma RunOneMore(s: State, ticks: seq<Tick>, i: nat)
    requires i < |ticks|
    ensures Run(s, ticks[..i + 1]) == Step(Run(s, ticks[..i]), ticks[i])
  {
    assert ticks[..i + 1][..i] == ticks[..i];
  }

  /** One pass of the polling loop on the script's locals. */
  method PollPass(recording: bool, fileNumber: nat, outputFile: string, calls: seq<Call>, t: Tick)
    returns (recording': bool, fileNumber': nat, outputFile': string, calls': seq<Call>)
    ensures State(recording', fileNumber', outputFile', calls') == Step(State(recording, fileNumber, outputFile, calls), t)
  {
    recording', fileNumber', outputFile', calls' := recording, fileNumber, outputFile, calls;
    if t.t && !recording' {
      calls' := calls' + [StartEncoder(outputFile')];
      recording' := true;
    }
    if t.p && recording' {
      calls' := calls' + [StopEncoder];
      fileNumber' := fileNumber' + 1;
      outputFile' := FileName(fileNumber');
      recording' := false;
    }
  }

  /** The polling loop on the script's locals, until the interrupt that ends the ticks. */
  method PollLoop(ticks: seq<Tick>) returns (s: State)
    ensures s == Run(Init(), ticks)
  {
    var fileNumber: nat := 1;
    var outputFile := FileName(fileNumber);
    var recording := true;
    var calls := [StartEncoder(outputFile)];
    var i := 0;
    while i < |ticks|
      invariant 0 <= i <= |ticks|
      invariant State(recording, fileNumber, outputFile, calls) == Run(Init(), ticks[..i])
    {
      RunOneMore(Init(), ticks, i);
      recording, fileNumber, outputFile, calls := PollPass(recording, fileNumber, outputFile, calls, ticks[i]);
      i := i + 1;
    }
    assert ticks[..i] == ticks;
    s := State(recording, fileNumber, outputFile, calls);
  }

  /**
   * The polling loop, then the exit path and the last line: as written when `corrected` is
   * false, with the corrected exit and message when it is true.
   */
  method CameraLoop(ticks: seq<Tick>, corrected: bool) returns (final: State, message: string)
    ensures final == if corrected then Exit(Run(Init(), ticks)) else ExitAsWritten(Run(Init(), ticks))
    ensures message == if corrected then Message(Run(Init(), ticks)) else MessageAsWritten(Run(Init(), ticks))
  {
    final := PollLoop(ticks);
    if !corrected {
      message := "Video saved as " + final.outputFile;
      final := final.(calls := final.calls + [StopEncoder]);
    } else {
      message := "Video saved as " + (if final.recording || final.fileNumber < 2 then final.outputFile else FileName(final.fileNumber - 1));
      if final.recording {
        final := final.(calls := final.calls + [StopEncoder]);
      }
    }
  }

  // ---------------------------------------------------------------------------------
  // Invariant: the calls are start/stop pairs on files 1, 2, ... in order

  /** The calls of m completed recordings: start file 1, stop, start file 2, stop, ... */
  function Completed(m: nat): seq<Call> {
    if m == 0 then [] else Completed(m - 1) + [StartEncoder(FileName(m)), StopEncoder]
  }

  /** `output_file` names `filenumber`; the calls are the completed recordings of the earlier files, then the start of this one while recording. */
  predicate Valid(s: State) {
    s.fileNumber >= 1 && s.outputFile == FileName(s.fileNumber)
    && (!s.recording ==> s.fileNumber >= 2)
    && s.calls == Completed(s.fileNumber - 1) + if s.recording then [StartEncoder(s.outputFile)] else []
  }

  lemma InitValid()
    ensures Valid(Init())
  {
    assert Completed(0) == [];
  }

  lemma PressTKeepsValid(s: State)
    requires Valid(s)
    ensures Valid(PressT(s))
  {
  }

  lemma PressPKeepsValid(s: State)
    requires Valid(s)
    ensures Valid(PressP(s))
  {
    if s.recording {
      var n := s.fileNumber;
      assert Completed(n) == Completed(n - 1) + [StartEncoder(FileName(n)), StopEncoder];
      assert s.calls + [StopEncoder] == Completed(n);
    }
  }

  lemma StepKeepsValid(s: State, t: Tick)
    requires Valid(s)
    ensures Valid(Step(s, t))
  {
    var afterT := if t.t then PressT(s) else s;
    PressTKeepsValid(s);
    PressPKeepsValid(afterT);
  }

  lemma {:induction false} RunKeepsValid(ticks: seq<Tick>)
    ensures Valid(Run(Init(), ticks))
  {
    if |ticks| == 0 {
      InitValid();
    } else {
      RunKeepsValid(ticks[..|ticks| - 1]);
      StepKeepsValid(Run(Init(), ticks[..|ticks| - 1]), ticks[|ticks| - 1]);
    }
  }

  /** 't' while recording and 'p' while stopped change nothing. */
  lemma KeysActOnlyInTheirState(s: State)
    ensures s.recording ==> PressT(s) == s
    ensures !s.recording ==> PressP(s) == s
  {
  }

  /** The files the encoder was started on, in order. */
  function Started(calls: seq<Call>): seq<string> {
    if |calls| == 0 then []
    else Started(calls[..|calls| - 1]) + match calls[|calls| - 1] case StartEncoder(f) => [f] case StopEncoder => []
  }

  lemma StartedAppend(calls: seq<Call>, c: Call)
    ensures Started(calls + [c]) == Started(calls) + match c case StartEncoder(f) => [f] case StopEncoder => []
  {
    assert (calls + [c])[..|calls|] == calls;
  }

  /** After m completed recordings, exactly files 1..m have been started, in order. */
  lemma {:induction false} StartedCompleted(m: nat)
    ensures |Started(Completed(m))| == m
    ensures forall i :: 0 <= i < m ==> Started(Completed(m))[i] == FileName(i + 1)
  {
    if m > 0 {
      StartedCompleted(m - 1);
      var first := Completed(m - 1) + [StartEncoder(FileName(m))];
      StartedAppend(Completed(m - 1), StartEncoder(FileName(m)));
      StartedAppend(first, StopEncoder);
      assert Completed(m) == first + [StopEncoder];
    }
  }

  /** The last file the encoder was started on, if any. */
  function LastStarted(calls: seq<Call>): Option<string> {
    var fs := Started(calls);
    if |fs| == 0 then None else Some(fs[|fs| - 1])
  }

  /** The file the recording actually went to last: the current one while recording, the previous number after a stop. */
  function SavedFile(s: State): string {
    if s.recording || s.fileNumber < 2 then s.outputFile else FileName(s.fileNumber - 1)
  }

  /** The last line, corrected: it names the file the encoder last wrote. */
  function Message(s: State): string {
    "Video saved as " + SavedFile(s)
  }

  /** The corrected exit path: `stop_encoder()` only while recording. */
  function Exit(s: State): State {
    if s.recording then s.(calls := s.calls + [StopEncoder]) else s
  }

  /** In every reachable state the corrected message names the file the encoder last started on. */
  lemma SavedFileIsLastStarted(s: State)
    requires Valid(s)
    ensures LastStarted(s.calls) == Some(SavedFile(s))
    ensures LastStarted(Exit(s).calls) == Some(SavedFile(s))
  {
    var n := s.fileNumber;
    if s.recording {
      StartedAppend(Completed(n - 1), StartEncoder(s.outputFile));
      var fs := Started(s.calls);
      assert fs[|fs| - 1] == s.outputFile;
      StartedAppend(s.calls, StopEncoder);
      assert Started(Exit(s).calls) == fs;
    } else {
      assert s.calls == Completed(n - 1) && Exit(s) == s;
      StartedCompleted(n - 1);
      var fs := Started(s.calls);
      assert |fs| == n - 1 && fs[n - 2] == FileName(n - 1);
    }
  }

  /**
   * As written, after any stop the message names a file the encoder was never started on:
   * the next number, not yet used.
   */
  lemma MessageNamesUnusedFile(s: State)
    requires Valid(s) && !s.recording
    ensures s.outputFile !in Started(ExitAsWritten(s).calls)
    ensures MessageAsWritten(s) != Message(s)
  {
    var n := s.fileNumber;
    assert s.calls == Completed(n - 1);
    StartedCompleted(n - 1);
    StartedAppend(s.calls, StopEncoder);
    var fs := Started(s.calls);
    if s.outputFile in fs {
      var i :| 0 <= i < |fs| && fs[i] == s.outputFile;
      assert fs[i] == FileName(i + 1);
      FileNameInjective(i + 1, n);
    }
    assert MessageAsWritten(s)[15..] == FileName(n) && Message(s)[15..] == FileName(n - 1);
  }

  lemma FirstNames()
    ensures FileName(1) == "video_output_1.h264" && FileName(2) == "video_output_2.h264"
  {
    assert NatToString(1) == [DigitChar(1)] == "1";
    assert NatToString(2) == [DigitChar(2)] == "2";
  }

  lemma OneStopState()
    ensures Run(Init(), [Tick(false, true)]) == PressP(Init())
  {
    assert [Tick(false, true)][..0] == [];
  }

  /** The shortest case: launch, one 'p', interrupt; the message names file 2, but only file 1 was recorded. */
  lemma OneStopExample()
    ensures var s := Run(Init(), [Tick(false, true)]);
      MessageAsWritten(s) == "Video saved as " + FileName(2)
      && Message(s) == "Video saved as " + FileName(1)
      && Started(ExitAsWritten(s).calls) == [FileName(1)]
  {
    OneStopState();
    var calls := [StartEncoder(FileName(1))];
    assert calls == [] + calls;
    StartedAppend([], StartEncoder(FileName(1)));
    StartedAppend(calls, StopEncoder);
    StartedAppend(calls + [StopEncoder], StopEncoder);
  }

  /**
   * As written, the exit path stops an encoder already stopped: after a 'p' the calls end
   * with two `stop_encoder()` in a row. The corrected exit leaves completed recordings only.
   */
  lemma ExitStopsTwice(s: State)
    requires Valid(s)
    ensures !s.recording ==> ExitAsWritten(s).calls[|s.calls| - 1] == StopEncoder == ExitAsWritten(s).calls[|s.calls|]
    ensures Exit(s).calls == Completed(if s.recording then s.fileNumber else s.fileNumber - 1)
  {
    var n := s.fileNumber;
    if s.recording {
      assert Completed(n) == Completed(n - 1) + [StartEncoder(FileName(n)), StopEncoder];
    } else {
      assert Completed(n - 1) == Completed(n - 2) + [StartEncoder(FileName(n - 1)), StopEncoder];
    }
  }
}
