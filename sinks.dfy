/**
 * Output files as values: a video file is the list of frames written to it, a CSV log
 * its name, header and rows. An open writer is an `Option` holding the file; closing it
 * moves the file to the list of saved files.
 */
module Sinks {
  import opened Wrappers

  /** A video file: its name and, for each frame written, the tick (frame count) it came from. */
  datatype VideoFile = VideoFile(name: string, frames: seq<nat>)

  datatype LogFile<R> = LogFile(name: string, header: seq<string>, rows: seq<R>)

  /** `video_writer.write(frame)` when a writer is open. */
  function WriteFrame(v: Option<VideoFile>, frame: nat): Option<VideoFile> {
    match v
    case None => None
    case Some(f) => Some(f.(frames := f.frames + [frame]))
  }

  /** `log_writer.writerow(row)` when a log is open. */
  function WriteRow<R>(l: Option<LogFile<R>>, r: R): Option<LogFile<R>> {
    match l
    case None => None
    case Some(f) => Some(f.(rows := f.rows + [r]))
  }

  /** Releasing or closing an open file saves it. */
  function Save<F>(open: Option<F>, saved: seq<F>): seq<F> {
    match open
    case None => saved
    case Some(f) => saved + [f]
  }

  /** Every file, saved ones first, then the open one. */
  function Files<F>(saved: seq<F>, open: Option<F>): seq<F> {
    Save(open, saved)
  }

  /** The frames of a list of video files, file after file. */
  function AllFrames(vs: seq<VideoFile>): seq<nat> {
    if |vs| == 0 then [] else AllFrames(vs[..|vs| - 1]) + vs[|vs| - 1].frames
  }

  /** The rows of a list of logs, file after file. */
  function AllRows<R>(ls: seq<LogFile<R>>): seq<R> {
    if |ls| == 0 then [] else AllRows(ls[..|ls| - 1]) + ls[|ls| - 1].rows
  }

  lemma AllFramesWrite(saved: seq<VideoFile>, v: Option<VideoFile>, frame: nat)
    ensures AllFrames(Files(saved, WriteFrame(v, frame)))
      == AllFrames(Files(saved, v)) + (if v.Some? then [frame] else [])
  {
    if v.Some? {
      var vs := saved + [v.value];
      var ws := saved + [WriteFrame(v, frame).value];
      assert vs[..|vs| - 1] == saved && ws[..|ws| - 1] == saved;
    } else {
      assert Files(saved, WriteFrame(v, frame)) == saved;
    }
  }

  lemma AllRowsWrite<R>(saved: seq<LogFile<R>>, l: Option<LogFile<R>>, r: R)
    ensures AllRows(Files(saved, WriteRow(l, r)))
      == AllRows(Files(saved, l)) + (if l.Some? then [r] else [])
  {
    if l.Some? {
      var ls := saved + [l.value];
      var ws := saved + [WriteRow(l, r).value];
      assert ls[..|ls| - 1] == saved && ws[..|ws| - 1] == saved;
    } else {
      assert Files(saved, WriteRow(l, r)) == saved;
    }
  }

  /** Opening a new, empty file after the others adds nothing to the frames written. */
  lemma AllFramesOpenEmpty(files: seq<VideoFile>, name: string)
    ensures AllFrames(files + [VideoFile(name, [])]) == AllFrames(files)
  {
    assert (files + [VideoFile(name, [])])[..|files|] == files;
  }

  lemma AllRowsOpenEmpty<R>(files: seq<LogFile<R>>, name: string, header: seq<string>)
    ensures AllRows(files + [LogFile(name, header, [])]) == AllRows(files)
  {
    assert (files + [LogFile(name, header, [])])[..|files|] == files;
  }

  /**
   * The files of a recording script: the open video writer and log (if any) and the files
   * already released or closed, in order.
   */
  datatype Recording<R> = Recording(video: Option<VideoFile>, log: Option<LogFile<R>>,
                                    savedVideos: seq<VideoFile>, savedLogs: seq<LogFile<R>>)

  /** A new video writer and a new log with its header row, nothing saved yet. */
  function Opened<R>(videoName: string, logName: string, header: seq<string>): Recording<R> {
    Recording(Some(VideoFile(videoName, [])), Some(LogFile(logName, header, [])), [], [])
  }

  lemma OpenedEffect<R>(videoName: string, logName: string, header: seq<string>)
    ensures var r: Recording<R> := Opened(videoName, logName, header);
      Frames(r) == [] && Rows(r) == [] && VideoNames(r) == [videoName] && LogHeads(r) == [(logName, header)]
  {
    var e: Recording<R> := Recording(None, None, [], []);
    assert Videos(e) == [] && Logs(e) == [];
    OpenNextEffect(e, videoName, logName, header);
    assert OpenNext(e, videoName, logName, header) == Opened(videoName, logName, header);
  }

  function Videos<R>(r: Recording<R>): seq<VideoFile> {
    Files(r.savedVideos, r.video)
  }

  function Logs<R>(r: Recording<R>): seq<LogFile<R>> {
    Files(r.savedLogs, r.log)
  }

  /** Every frame written, file after file. */
  function Frames<R>(r: Recording<R>): seq<nat> {
    AllFrames(Videos(r))
  }

  /** Every row written, file after file. */
  function Rows<R>(r: Recording<R>): seq<R> {
    AllRows(Logs(r))
  }

  function VideoNames<R>(r: Recording<R>): (ns: seq<string>)
    ensures |ns| == |Videos(r)|
  {
    seq(|Videos(r)|, k requires 0 <= k < |Videos(r)| => Videos(r)[k].name)
  }

  /** The name and header of every log, in order. */
  function LogHeads<R>(r: Recording<R>): (hs: seq<(string, seq<string>)>)
    ensures |hs| == |Logs(r)|
  {
    seq(|Logs(r)|, k requires 0 <= k < |Logs(r)| => (Logs(r)[k].name, Logs(r)[k].header))
  }

  /** `video_writer.write(frame)` if a writer is open. */
  function PutFrame<R>(r: Recording<R>, frame: nat): Recording<R> {
    r.(video := WriteFrame(r.video, frame))
  }

  /** `log_writer.writerow(row)` if a log is open. */
  function PutRow<R>(r: Recording<R>, row: R): Recording<R> {
    r.(log := WriteRow(r.log, row))
  }

  /** Release the video writer and close the log, if open. */
  function CloseAll<R>(r: Recording<R>): Recording<R> {
    Recording(None, None, Save(r.video, r.savedVideos), Save(r.log, r.savedLogs))
  }

  /** Open a new video writer and log; a file still open is dropped without being saved. */
  function OpenNext<R>(r: Recording<R>, videoName: string, logName: string, header: seq<string>): Recording<R> {
    r.(video := Some(VideoFile(videoName, [])), log := Some(LogFile(logName, header, [])))
  }

  /** Writing a frame adds it after all earlier frames when a writer is open, and changes no name and no row. */
  lemma PutFrameEffect<R>(r: Recording<R>, frame: nat)
    ensures Frames(PutFrame(r, frame)) == Frames(r) + (if r.video.Some? then [frame] else [])
    ensures Rows(PutFrame(r, frame)) == Rows(r)
    ensures VideoNames(PutFrame(r, frame)) == VideoNames(r) && LogHeads(PutFrame(r, frame)) == LogHeads(r)
  {
    AllFramesWrite(r.savedVideos, r.video, frame);
  }

  /** Writing a row adds it after all earlier rows when a log is open, and changes no name and no frame. */
  lemma PutRowEffect<R>(r: Recording<R>, row: R)
    ensures Rows(PutRow(r, row)) == Rows(r) + (if r.log.Some? then [row] else [])
    ensures Frames(PutRow(r, row)) == Frames(r)
    ensures VideoNames(PutRow(r, row)) == VideoNames(r) && LogHeads(PutRow(r, row)) == LogHeads(r)
  {
    AllRowsWrite(r.savedLogs, r.log, row);
  }

  /** Closing saves the open files in place: the same files in the same order. */
  lemma CloseAllEffect<R>(r: Recording<R>)
    ensures Videos(CloseAll(r)) == Videos(r) && Logs(CloseAll(r)) == Logs(r)
    ensures CloseAll(r).video.None? && CloseAll(r).log.None?
  {
  }

  /** Opening files when none is open adds two empty files after the others. */
  lemma OpenNextEffect<R>(r: Recording<R>, videoName: string, logName: string, header: seq<string>)
    requires r.video.None? && r.log.None?
    ensures var n := OpenNext(r, videoName, logName, header);
      Frames(n) == Frames(r) && Rows(n) == Rows(r)
      && VideoNames(n) == VideoNames(r) + [videoName]
      && LogHeads(n) == LogHeads(r) + [(logName, header)]
  {
    var n := OpenNext(r, videoName, logName, header);
    assert Videos(n) == Videos(r) + [VideoFile(videoName, [])];
    assert Logs(n) == Logs(r) + [LogFile(logName, header, [])];
    AllFramesOpenEmpty(Videos(r), videoName);
    AllRowsOpenEmpty(Logs(r), logName, header);
  }

  /**
   * Rebinding the writer and the log to new files without closing the old ones. Nothing
   * more is written to the old files; the model keeps what was written to them, in order,
   * after which come the two new, empty files.
   */
  function Reopen<R>(r: Recording<R>, videoName: string, logName: string, header: seq<string>): Recording<R> {
    OpenNext(CloseAll(r), videoName, logName, header)
  }

  lemma ReopenEffect<R>(r: Recording<R>, videoName: string, logName: string, header: seq<string>)
    ensures var n := Reopen(r, videoName, logName, header);
      Videos(n) == Videos(r) + [VideoFile(videoName, [])] && Logs(n) == Logs(r) + [LogFile(logName, header, [])]
      && Frames(n) == Frames(r) && Rows(n) == Rows(r)
      && VideoNames(n) == VideoNames(r) + [videoName] && LogHeads(n) == LogHeads(r) + [(logName, header)]
  {
    CloseAllEffect(r);
    OpenNextEffect(CloseAll(r), videoName, logName, header);
  }

  /** `video_writer.release()` alone: the log stays open. */
  function ReleaseVideo<R>(r: Recording<R>): Recording<R> {
    r.(video := None, savedVideos := Save(r.video, r.savedVideos))
  }

  lemma ReleaseVideoEffect<R>(r: Recording<R>)
    ensures var n := ReleaseVideo(r);
      Videos(n) == Videos(r) && Logs(n) == Logs(r) && n.video.None? && n.log == r.log
  {
  }

  predicate StrictlyIncreasing(xs: seq<nat>) {
    forall i, j :: 0 <= i < j < |xs| ==> xs[i] < xs[j]
  }

  predicate AllBelow(xs: seq<nat>, bound: nat) {
    forall i :: 0 <= i < |xs| ==> xs[i] <= bound
  }

  /** Appending a number above all earlier ones keeps a list strictly increasing. */
  lemma IncreasingAppend(xs: seq<nat>, bound: nat)
    requires StrictlyIncreasing(xs) && AllBelow(xs, bound)
    ensures StrictlyIncreasing(xs + [bound + 1]) && AllBelow(xs + [bound + 1], bound + 1)
  {
  }
}
