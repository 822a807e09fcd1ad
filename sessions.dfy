/**
 * The session file names shared by the recorders: every session k of a run gets a video
 * and a log named `'{start time}_Sample{sample}_Session{k}'` followed by a fixed suffix,
 * `'_video.mp4'`/`'_log.csv'` where `generate_filename` builds them and `'.mp4'`/`'_log.csv'`
 * in the scripts that format the names inline.
 */
module Sessions {
  import opened Text
  import opened Sinks

  /**
   * The start time, as `generate_filename` renders it ("%Y%m%d_%H%M%S"), and the sample
   * number typed at start-up.
   */
  datatype Config = Config(stamp: string, sample: string)

  function ConfigAt(base: DateTime, sample: string): Config
    requires ValidTime(base)
  {
    Config(Compact(base), sample)
  }

  /**
   * What follows the stem `'{stamp}_Sample{sample}_Session{k}'` in a session's video and
   * log names.
   */
  datatype Naming = Naming(video: string, log: string)

  /** `generate_filename(.., "video.mp4")` and `generate_filename(.., "log.csv")`. */
  const GENERATED: Naming := Naming("_video.mp4", "_log.csv")
  /** `f"{base}.mp4"` and `f"{base}_log.csv"`, as the scripts without `generate_filename` build them. */
  const BARE: Naming := Naming(".mp4", "_log.csv")

  /** Both suffixes start with a non-digit, and they differ. */
  predicate Separable(nm: Naming) {
    |nm.video| > 0 && |nm.log| > 0 && !IsDigit(nm.video[0]) && !IsDigit(nm.log[0]) && nm.video != nm.log
  }

  lemma NamingsSeparable()
    ensures Separable(GENERATED) && Separable(BARE)
  {
    assert GENERATED.video[1] != GENERATED.log[1];
    assert BARE.video[0] != BARE.log[0];
  }

  function SessionVideo(nm: Naming, cfg: Config, k: nat): string {
    SessionStem(cfg.stamp, cfg.sample, k) + nm.video
  }

  function SessionLog(nm: Naming, cfg: Config, k: nat): string {
    SessionStem(cfg.stamp, cfg.sample, k) + nm.log
  }

  /** `generate_filename(base_time, sample_number, k, "video.mp4")`, written out. */
  function VideoName(cfg: Config, k: nat): string {
    SessionVideo(GENERATED, cfg, k)
  }

  /** `generate_filename(base_time, sample_number, k, "log.csv")`, written out. */
  function LogName(cfg: Config, k: nat): string {
    SessionLog(GENERATED, cfg, k)
  }

  /** The names written out above are the ones `generate_filename` builds. */
  lemma NamesAreGenerated(base: DateTime, sample: string, k: nat)
    requires ValidTime(base)
    ensures VideoName(ConfigAt(base, sample), k) == GenerateFilename(base, sample, k, "video.mp4")
    ensures LogName(ConfigAt(base, sample), k) == GenerateFilename(base, sample, k, "log.csv")
  {
  }

  /** Two file names of a run are equal only for the same session and the same kind of file. */
  lemma NamesSeparate(nm: Naming, cfg: Config, j: nat, k: nat)
    requires Separable(nm)
    ensures SessionVideo(nm, cfg, j) == SessionVideo(nm, cfg, k) ==> j == k
    ensures SessionLog(nm, cfg, j) == SessionLog(nm, cfg, k) ==> j == k
    ensures SessionLog(nm, cfg, j) != SessionVideo(nm, cfg, k)
  {
    var p := cfg.stamp + "_Sample" + cfg.sample + "_Session";
    var v, l := nm.video, nm.log;
    assert v == [v[0]] + v[1..] && l == [l[0]] + l[1..];
    assert SessionVideo(nm, cfg, j) == p + NatToString(j) + [v[0]] + v[1..];
    assert SessionVideo(nm, cfg, k) == p + NatToString(k) + [v[0]] + v[1..];
    assert SessionLog(nm, cfg, j) == p + NatToString(j) + [l[0]] + l[1..];
    assert SessionLog(nm, cfg, k) == p + NatToString(k) + [l[0]] + l[1..];
    if SessionVideo(nm, cfg, j) == SessionVideo(nm, cfg, k) {
      StemThenSeparatorInjective(p, j, k, v[0], v[0], v[1..], v[1..]);
    }
    if SessionLog(nm, cfg, j) == SessionLog(nm, cfg, k) {
      StemThenSeparatorInjective(p, j, k, l[0], l[0], l[1..], l[1..]);
    }
    if SessionLog(nm, cfg, j) == SessionVideo(nm, cfg, k) {
      StemThenSeparatorInjective(p, j, k, l[0], v[0], l[1..], v[1..]);
    }
  }

  /** The video names of sessions 1..n. */
  function SessionVideoNames(nm: Naming, cfg: Config, n: nat): (ns: seq<string>)
    ensures |ns| == n
  {
    seq(n, k requires 0 <= k < n => SessionVideo(nm, cfg, k + 1))
  }

  /** The log names and headers of sessions 1..n: session 1's log has header `first`, later ones `rest`. */
  function SessionLogHeads(nm: Naming, cfg: Config, n: nat, first: seq<string>, rest: seq<string>): (hs: seq<(string, seq<string>)>)
    ensures |hs| == n
  {
    seq(n, k requires 0 <= k < n => (SessionLog(nm, cfg, k + 1), if k == 0 then first else rest))
  }

  lemma SessionNamesGrow(nm: Naming, cfg: Config, n: nat, first: seq<string>, rest: seq<string>)
    requires n >= 1
    ensures SessionVideoNames(nm, cfg, n + 1) == SessionVideoNames(nm, cfg, n) + [SessionVideo(nm, cfg, n + 1)]
    ensures SessionLogHeads(nm, cfg, n + 1, first, rest) == SessionLogHeads(nm, cfg, n, first, rest) + [(SessionLog(nm, cfg, n + 1), rest)]
  {
  }

  /** Sessions 1..n each own one video and one log, in order, named for their number. */
  predicate NamedSessions<R>(nm: Naming, cfg: Config, r: Recording<R>, n: nat, first: seq<string>, rest: seq<string>) {
    n >= 1 && VideoNames(r) == SessionVideoNames(nm, cfg, n) && LogHeads(r) == SessionLogHeads(nm, cfg, n, first, rest)
  }

  /** Files named for their sessions never share a name. */
  lemma NamedSessionsDistinct<R>(nm: Naming, cfg: Config, r: Recording<R>, n: nat, first: seq<string>, rest: seq<string>)
    requires Separable(nm) && NamedSessions(nm, cfg, r, n, first, rest)
    ensures var ls, vs := Logs(r), Videos(r);
      (forall i, j :: 0 <= i < j < |ls| ==> ls[i].name != ls[j].name)
      && (forall i, j :: 0 <= i < j < |vs| ==> vs[i].name != vs[j].name)
      && (forall i, j :: 0 <= i < |ls| && 0 <= j < |vs| ==> ls[i].name != vs[j].name)
  {
    var ls, vs := Logs(r), Videos(r);
    forall i | 0 <= i < |ls|
      ensures ls[i].name == SessionLog(nm, cfg, i + 1)
    {
      assert LogHeads(r)[i].0 == ls[i].name;
    }
    forall j | 0 <= j < |vs|
      ensures vs[j].name == SessionVideo(nm, cfg, j + 1)
    {
      assert VideoNames(r)[j] == vs[j].name;
    }
    forall i, j | 0 <= i < j < |ls|
      ensures ls[i].name != ls[j].name
    {
      NamesSeparate(nm, cfg, i + 1, j + 1);
    }
    forall i, j | 0 <= i < j < |vs|
      ensures vs[i].name != vs[j].name
    {
      NamesSeparate(nm, cfg, i + 1, j + 1);
    }
    forall i, j | 0 <= i < |ls| && 0 <= j < |vs|
      ensures ls[i].name != vs[j].name
    {
      NamesSeparate(nm, cfg, i + 1, j + 1);
    }
  }
}
