/**
 * Sidecam5: an event logger. Input 15 going HIGH while idle starts a recording named after
 * the moment it turned on and logs an ON row; going LOW while recording stops it and logs
 * an OFF row. Pin 14 stays HIGH from startup; pin 18 follows recording.
 */
module Sidecam5 {
  import opened Wrappers
  import opened Text
  import opened Sinks

  /** A log row: "ON" or "OFF" and the time of the event. */
  type Event = (string, string)

  const HEADER: seq<string> := ["LED State", "Timestamp"]

  /** One pass of the polling loop: input 15 and the clock. */
  datatype Tick = Tick(input: bool, now: DateTime)

  predicate ValidTicks(ticks: seq<Tick>) {
    forall k :: 0 <= k < |ticks| ==> ValidTime(ticks[k].now)
  }

  /**
   * `recording`, `on_time`, the levels of pins 14 and 18, the event log (written once with
   * its header, then appended to) and the names of the videos started.
   */
  datatype State = State(recording: bool, onTime: Option<DateTime>, pin14: bool, pin18: bool,
                         log: LogFile<Event>, videos: seq<string>)

  /** `f"log_{now:%Y-%m-%d_%H-%M-%S}.csv"` */
  function LogName(startup: DateTime): string
    requires ValidTime(startup)
  {
    "log_" + Dashed(startup) + ".csv"
  }

  /** `f"video_{on_time:%Y-%m-%d_%H-%M-%S}.mp4"` */
  function VideoName(onTime: DateTime): string
    requires ValidTime(onTime)
  {
    "video_" + Dashed(onTime) + ".mp4"
  }

  /** Startup: pin 14 HIGH, pin 18 LOW, the log created with mode "w" holding only its header. */
  function Init(startup: DateTime): State
    requires ValidTime(startup)
  {
    State(false, None, true, false, LogFile(LogName(startup), HEADER, []), [])
  }

  /** Input HIGH while idle: `on_time`, pin 18 HIGH, a recording named after `on_time`, an ON row. */
  function TurnOn(s: State, now: DateTime): State
    requires ValidTime(now)
  {
    s.(onTime := Some(now), pin18 := true, videos := s.videos + [VideoName(now)],
       log := s.log.(rows := s.log.rows + [("ON", Spaced(now))]), recording := true)
  }

  /** Input LOW while recording: stop, pin 18 LOW, an OFF row. */
  function TurnOff(s: State, now: DateTime): State
    requires ValidTime(now)
  {
    s.(pin18 := false, log := s.log.(rows := s.log.rows + [("OFF", Spaced(now))]), recording := false)
  }

  function Step(s: State, t: Tick): State
    requires ValidTime(t.now)
  {
    if t.input && !s.recording then TurnOn(s, t.now)
    else if !t.input && s.recording then TurnOff(s, t.now)
    else s
  }

  function Run(s: State, ticks: seq<Tick>): State
    requires ValidTicks(ticks)
  {
    if |ticks| == 0 then s else Step(Run(s, ticks[..|ticks| - 1]), ticks[|ticks| - 1])
  }

  lemma RunOneMore(s: State, ticks: seq<Tick>, i: nat)
    requires i < |ticks| && ValidTicks(ticks)
    ensures ValidTicks(ticks[..i]) && ValidTicks(ticks[..i + 1]) && ValidTime(ticks[i].now)
    ensures Run(s, ticks[..i + 1]) == Step(Run(s, ticks[..i]), ticks[i])
  {
    assert ticks[..i + 1][..i] == ticks[..i];
  }

  /** The script's loop on its locals, until the interrupt that ends the ticks. */
  method EventLoop(startup: DateTime, ticks: seq<Tick>) returns (final: State)
    requires ValidTime(startup) && ValidTicks(ticks)
    ensures final == Run(Init(startup), ticks)
  {
    var pin14, pin18 := true, false;
    var log := LogFile(LogName(startup), HEADER, []);
    var recording: bool, onTime: Option<DateTime>, videos: seq<string> := false, None, [];
    var i := 0;
    while i < |ticks|
      invariant 0 <= i <= |ticks|
      invariant ValidTicks(ticks[..i])
      invariant State(recording, onTime, pin14, pin18, log, videos) == Run(Init(startup), ticks[..i])
    {
      RunOneMore(Init(startup), ticks, i);
      var t := ticks[i];
      ghost var before := State(recording, onTime, pin14, pin18, log, videos);
      if t.input && !recording {
        onTime := Some(t.now);
        pin18 := true;
        videos := videos + [VideoName(t.now)];
        log := log.(rows := log.rows + [("ON", Spaced(t.now))]);
        recording := true;
        assert State(recording, onTime, pin14, pin18, log, videos) == TurnOn(before, t.now);
      } else if !t.input && recording {
        pin18 := false;
        log := log.(rows := log.rows + [("OFF", Spaced(t.now))]);
        recording := false;
        assert State(recording, onTime, pin14, pin18, log, videos) == TurnOff(before, t.now);
      }
      i := i + 1;
    }
    assert ticks[..i] == ticks;
    final := State(recording, onTime, pin14, pin18, log, videos);
  }

  // ---------------------------------------------------------------------------------
  // Properties

  /** Row i is ON for even i and OFF for odd i. */
  predicate Alternating(rows: seq<Event>) {
    forall i :: 0 <= i < |rows| ==> rows[i].0 == if i % 2 == 0 then "ON" else "OFF"
  }

  /**
   * Pin 14 stays HIGH, pin 18 follows recording, the rows alternate from ON and end with ON
   * exactly while recording, one video per ON row, and while recording the last video and
   * the last row carry `on_time`.
   */
  predicate Valid(s: State) {
    s.pin14 && s.pin18 == s.recording
    && Alternating(s.log.rows) && s.log.header == HEADER
    && (s.recording <==> |s.log.rows| % 2 == 1)
    && |s.videos| == (|s.log.rows| + 1) / 2
    && (s.recording ==>
          s.onTime.Some? && ValidTime(s.onTime.value)
          && s.videos[|s.videos| - 1] == VideoName(s.onTime.value)
          && s.log.rows[|s.log.rows| - 1] == ("ON", Spaced(s.onTime.value)))
  }

  lemma InitValid(startup: DateTime)
    requires ValidTime(startup)
    ensures Valid(Init(startup)) && Init(startup).log.rows == []
  {
  }

  lemma TurnOnKeepsValid(s: State, now: DateTime)
    requires ValidTime(now) && Valid(s) && !s.recording
    ensures Valid(TurnOn(s, now))
  {
    var r := TurnOn(s, now);
    assert r.log.rows[|s.log.rows|].0 == "ON";
  }

  lemma TurnOffKeepsValid(s: State, now: DateTime)
    requires ValidTime(now) && Valid(s) && s.recording
    ensures Valid(TurnOff(s, now))
  {
    var r := TurnOff(s, now);
    assert r.log.rows[|s.log.rows|].0 == "OFF";
  }

  lemma StepKeepsValid(s: State, t: Tick)
    requires ValidTime(t.now) && Valid(s)
    ensures Valid(Step(s, t))
  {
    if t.input && !s.recording {
      TurnOnKeepsValid(s, t.now);
    } else if !t.input && s.recording {
      TurnOffKeepsValid(s, t.now);
    }
  }

  lemma {:induction false} RunKeepsValid(startup: DateTime, ticks: seq<Tick>)
    requires ValidTime(startup) && ValidTicks(ticks)
    ensures Valid(Run(Init(startup), ticks))
  {
    if |ticks| > 0 {
      var init := ticks[..|ticks| - 1];
      assert ValidTicks(init);
      RunKeepsValid(startup, init);
      StepKeepsValid(Run(Init(startup), init), ticks[|ticks| - 1]);
    }
  }

  /** An ON row (and a new video) comes exactly from input HIGH while idle; an OFF row exactly from input LOW while recording. */
  lemma EventRule(s: State, t: Tick)
    requires ValidTime(t.now)
    ensures var r := Step(s, t);
      ((r.log.rows == s.log.rows + [("ON", Spaced(t.now))] && r.videos == s.videos + [VideoName(t.now)])
         <==> t.input && !s.recording)
      && (r.log.rows == s.log.rows + [("OFF", Spaced(t.now))] <==> !t.input && s.recording)
      && (r.log.rows == s.log.rows <==> t.input == s.recording)
  {
    var r := Step(s, t);
    if t.input != s.recording {
      assert |r.log.rows| == |s.log.rows| + 1;
      assert r.log.rows[|s.log.rows|] == (if t.input then ("ON", Spaced(t.now)) else ("OFF", Spaced(t.now)));
    }
  }

  /** The log never changes name or header: the header is written once, at startup. */
  lemma {:induction false} HeaderOnce(startup: DateTime, ticks: seq<Tick>)
    requires ValidTime(startup) && ValidTicks(ticks)
    ensures var r := Run(Init(startup), ticks); r.log.name == LogName(startup) && r.log.header == HEADER
  {
    if |ticks| > 0 {
      var init := ticks[..|ticks| - 1];
      assert ValidTicks(init);
      HeaderOnce(startup, init);
    }
  }
}
