/**
 * Decimal rendering and parsing of naturals (Python's `str(n)` and `int(s)` on ASCII
 * digit strings), `strftime` renderings of a wall-clock time, and the output file names
 * the recording scripts build from them.
 */
module Text {

  predicate IsDigit(c: char) {
    '0' <= c <= '9'
  }

  predicate AllDigits(s: string) {
    forall i :: 0 <= i < |s| ==> IsDigit(s[i])
  }

  function DigitChar(d: nat): (c: char)
    requires d < 10
    ensures IsDigit(c)
  {
    (48 + d) as char
  }

  function DigitValue(c: char): (d: nat)
    requires IsDigit(c)
    ensures d < 10
  {
    (c as int) - 48
  }

  function Pow10(k: nat): (p: nat)
    ensures p >= 1
  {
    if k == 0 then 1 else 10 * Pow10(k - 1)
  }

  /** Python's `str(n)` for a non-negative integer: the shortest decimal rendering. */
  function NatToString(n: nat): (s: string)
    ensures 1 <= |s| && AllDigits(s)
    ensures n < 10 <==> |s| == 1
  {
    if n < 10 then [DigitChar(n)] else NatToString(n / 10) + [DigitChar(n % 10)]
  }

  /** Python's `int(s)` on a string of ASCII digits (leading zeros allowed, "" read as 0). */
  function DecimalValue(s: string): nat
    requires AllDigits(s)
  {
    if |s| == 0 then 0 else 10 * DecimalValue(s[..|s| - 1]) + DigitValue(s[|s| - 1])
  }

  /** `int(str(n)) == n`: the decimal rendering reads back as the same number. */
  lemma {:induction false} DecimalOfNatToString(n: nat)
    ensures DecimalValue(NatToString(n)) == n
  {
    var s := NatToString(n);
    if n < 10 {
      assert s[..|s| - 1] == [];
    } else {
      assert s[..|s| - 1] == NatToString(n / 10);
      DecimalOfNatToString(n / 10);
    }
  }

  /** Distinct numbers render as distinct strings. */
  lemma NatToStringInjective(m: nat, n: nat)
    requires NatToString(m) == NatToString(n)
    ensures m == n
  {
    DecimalOfNatToString(m);
    DecimalOfNatToString(n);
  }

  lemma AllDigitsAppend(a: string, b: string)
    requires AllDigits(a) && AllDigits(b)
    ensures AllDigits(a + b)
  {
  }

  lemma {:induction false} DecimalValueAppend(a: string, b: string)
    requires AllDigits(a) && AllDigits(b)
    ensures AllDigits(a + b)
    ensures DecimalValue(a + b) == DecimalValue(a) * Pow10(|b|) + DecimalValue(b)
  {
    AllDigitsAppend(a, b);
    if |b| == 0 {
      assert a + b == a;
    } else {
      var b' := b[..|b| - 1];
      var ab := a + b;
      assert ab[..|ab| - 1] == a + b';
      assert ab[|ab| - 1] == b[|b| - 1];
      DecimalValueAppend(a, b');
      StepValue(DecimalValue(a), DecimalValue(b'), Pow10(|b'|), DigitValue(b[|b| - 1]));
    }
  }

  lemma StepValue(va: nat, vb: nat, p: nat, d: nat)
    ensures 10 * (va * p + vb) + d == va * (10 * p) + (10 * vb + d)
  {
  }

  function Zeros(k: nat): (s: string)
    ensures |s| == k && AllDigits(s)
  {
    seq(k, _ => '0')
  }

  lemma {:induction false} DecimalValueZeros(k: nat)
    ensures DecimalValue(Zeros(k)) == 0
  {
    if k > 0 {
      assert Zeros(k)[..k - 1] == Zeros(k - 1);
      DecimalValueZeros(k - 1);
    }
  }

  lemma {:induction false} NatToStringLength(n: nat, w: nat)
    requires 1 <= w && n < Pow10(w)
    ensures |NatToString(n)| <= w
  {
    if n >= 10 {
      NatToStringLength(n / 10, w - 1);
    }
  }

  /** Zero-padded rendering, as `strftime`'s `%m`, `%d`, `%H`, `%M`, `%S` (width 2), `%Y` (4), `%f` (6). */
  function Pad(n: nat, width: nat): (s: string)
    requires 1 <= width && n < Pow10(width)
    ensures |s| == width && AllDigits(s)
  {
    NatToStringLength(n, width);
    Zeros(width - |NatToString(n)|) + NatToString(n)
  }

  lemma PadReadsBack(n: nat, width: nat)
    requires 1 <= width && n < Pow10(width)
    ensures DecimalValue(Pad(n, width)) == n
  {
    NatToStringLength(n, width);
    var s := NatToString(n);
    var z := Zeros(width - |s|);
    assert Pad(n, width) == z + s;
    DecimalValueAppend(z, s);
    DecimalValueZeros(|z|);
    assert DecimalValue(z) * Pow10(|s|) == 0;
    DecimalOfNatToString(n);
  }

  /** A wall-clock reading as `datetime.now()` returns it. */
  datatype DateTime = DateTime(year: nat, month: nat, day: nat, hour: nat, minute: nat, second: nat, micro: nat)

  predicate ValidTime(t: DateTime) {
    1000 <= t.year <= 9999 && 1 <= t.month <= 12 && 1 <= t.day <= 31
    && t.hour < 24 && t.minute < 60 && t.second < 60 && t.micro < 1000000
  }

  /** `t.strftime("%Y%m%d_%H%M%S")` */
  function Compact(t: DateTime): (s: string)
    requires ValidTime(t)
    ensures |s| == 15 && s[8] == '_'
  {
    Pad(t.year, 4) + Pad(t.month, 2) + Pad(t.day, 2) + "_" + Pad(t.hour, 2) + Pad(t.minute, 2) + Pad(t.second, 2)
  }

  /** `%Y<d>%m<d>%d<m>%H<t>%M<t>%S`: the date and the time of day with their separators. */
  function Stamp(t: DateTime, dateSep: char, mid: char, timeSep: char): (s: string)
    requires ValidTime(t)
    ensures |s| == 19
  {
    Pad(t.year, 4) + [dateSep] + Pad(t.month, 2) + [dateSep] + Pad(t.day, 2) + [mid]
    + Pad(t.hour, 2) + [timeSep] + Pad(t.minute, 2) + [timeSep] + Pad(t.second, 2)
  }

  /** `t.strftime("%Y-%m-%d_%H-%M-%S")` */
  function Dashed(t: DateTime): (s: string)
    requires ValidTime(t)
    ensures |s| == 19
  {
    Stamp(t, '-', '_', '-')
  }

  /** `t.strftime("%Y-%m-%d %H:%M:%S")` */
  function Spaced(t: DateTime): (s: string)
    requires ValidTime(t)
    ensures |s| == 19
  {
    Stamp(t, '-', ' ', ':')
  }

  /** `t.strftime("%Y-%m-%d_%H-%M-%S.%f")` */
  function DashedMicros(t: DateTime): (s: string)
    requires ValidTime(t)
    ensures |s| == 26
  {
    Dashed(t) + "." + Pad(t.micro, 6)
  }

  /** `t.strftime("%Y-%m-%d %H_%M_%S.%f")` */
  function EventStamp(t: DateTime): (s: string)
    requires ValidTime(t)
    ensures |s| == 26
  {
    Stamp(t, '-', ' ', '_') + "." + Pad(t.micro, 6)
  }

  /** The six fields of a `Stamp` are digits at their fixed offsets. */
  predicate StampFields(s: string) {
    |s| >= 19 && AllDigits(s[0..4]) && AllDigits(s[5..7]) && AllDigits(s[8..10])
    && AllDigits(s[11..13]) && AllDigits(s[14..16]) && AllDigits(s[17..19])
  }

  /** Reads the date and time of day back from the first 19 characters (no microseconds). */
  function ParseStamp(s: string): DateTime
    requires StampFields(s)
  {
    DateTime(DecimalValue(s[0..4]), DecimalValue(s[5..7]), DecimalValue(s[8..10]),
             DecimalValue(s[11..13]), DecimalValue(s[14..16]), DecimalValue(s[17..19]), 0)
  }

  /** Reads a stamp with a six-digit `.%f` tail back, microseconds included. */
  function ParseMicros(s: string): DateTime
    requires |s| == 26 && StampFields(s) && AllDigits(s[20..26])
  {
    ParseStamp(s).(micro := DecimalValue(s[20..26]))
  }

  /** Three fields, the last two of width 2, joined by one separator: each field at its offset. */
  lemma ThreeFields(a: string, b: string, c: string, sep: char)
    requires |b| == 2 && |c| == 2
    ensures var s, n := a + [sep] + b + [sep] + c, |a|;
      s[..n] == a && s[n] == sep && s[n + 1..n + 3] == b && s[n + 3] == sep && s[n + 4..n + 6] == c
  {
  }

  /** Every stamp puts its separators at offsets 4, 7, 10, 13 and 16 and loses only the microseconds. */
  lemma StampReadsBack(t: DateTime, dateSep: char, mid: char, timeSep: char)
    requires ValidTime(t)
    ensures var s := Stamp(t, dateSep, mid, timeSep);
      s[4] == dateSep && s[7] == dateSep && s[10] == mid && s[13] == timeSep && s[16] == timeSep
      && StampFields(s) && ParseStamp(s) == t.(micro := 0)
  {
    var s := Stamp(t, dateSep, mid, timeSep);
    var y, mo, d := Pad(t.year, 4), Pad(t.month, 2), Pad(t.day, 2);
    var h, mi, se := Pad(t.hour, 2), Pad(t.minute, 2), Pad(t.second, 2);
    var date := y + [dateSep] + mo + [dateSep] + d;
    var time := h + [timeSep] + mi + [timeSep] + se;
    assert s == date + [mid] + time;
    assert s[0..10] == date && s[10] == mid && s[11..19] == time;
    ThreeFields(y, mo, d, dateSep);
    ThreeFields(h, mi, se, timeSep);
    assert s[0..4] == date[0..4] && s[5..7] == date[5..7] && s[8..10] == date[8..10];
    assert s[11..13] == time[0..2] && s[14..16] == time[3..5] && s[17..19] == time[6..8];
    PadReadsBack(t.year, 4); PadReadsBack(t.month, 2); PadReadsBack(t.day, 2);
    PadReadsBack(t.hour, 2); PadReadsBack(t.minute, 2); PadReadsBack(t.second, 2);
  }

  /** A stamp followed by `.%f`: the point at offset 19 and every field, microseconds included, read back. */
  lemma MicrosReadsBack(t: DateTime, dateSep: char, mid: char, timeSep: char)
    requires ValidTime(t)
    ensures var s := Stamp(t, dateSep, mid, timeSep) + "." + Pad(t.micro, 6);
      s[..19] == Stamp(t, dateSep, mid, timeSep) && s[19] == '.'
      && StampFields(s) && AllDigits(s[20..26]) && ParseMicros(s) == t
  {
    var p := Stamp(t, dateSep, mid, timeSep);
    var f := Pad(t.micro, 6);
    var s := p + "." + f;
    StampReadsBack(t, dateSep, mid, timeSep);
    assert s[..19] == p && s[20..26] == f;
    assert s[0..4] == p[0..4] && s[5..7] == p[5..7] && s[8..10] == p[8..10];
    assert s[11..13] == p[11..13] && s[14..16] == p[14..16] && s[17..19] == p[17..19];
    PadReadsBack(t.micro, 6);
  }

  /** `%Y-%m-%d_%H-%M-%S`: dashes in the date and the time, an underscore between them. */
  lemma DashedReadsBack(t: DateTime)
    requires ValidTime(t)
    ensures var s := Dashed(t);
      s[4] == '-' && s[7] == '-' && s[10] == '_' && s[13] == '-' && s[16] == '-'
      && StampFields(s) && ParseStamp(s) == t.(micro := 0)
  {
    StampReadsBack(t, '-', '_', '-');
  }

  /** `%Y-%m-%d %H:%M:%S`: dashes in the date, a space, colons in the time. */
  lemma SpacedReadsBack(t: DateTime)
    requires ValidTime(t)
    ensures var s := Spaced(t);
      s[4] == '-' && s[7] == '-' && s[10] == ' ' && s[13] == ':' && s[16] == ':'
      && StampFields(s) && ParseStamp(s) == t.(micro := 0)
  {
    StampReadsBack(t, '-', ' ', ':');
  }

  /** `%Y-%m-%d_%H-%M-%S.%f`: the dashed stamp, a point and six digits of microseconds. */
  lemma DashedMicrosReadsBack(t: DateTime)
    requires ValidTime(t)
    ensures var s := DashedMicros(t);
      s[..19] == Dashed(t) && s[19] == '.' && StampFields(s) && AllDigits(s[20..26])
      && ParseMicros(s) == t
  {
    MicrosReadsBack(t, '-', '_', '-');
  }

  /** `%Y-%m-%d %H_%M_%S.%f`: dashes in the date, a space, underscores in the time, then `.%f`. */
  lemma EventStampReadsBack(t: DateTime)
    requires ValidTime(t)
    ensures var s := EventStamp(t);
      s[4] == '-' && s[7] == '-' && s[10] == ' ' && s[13] == '_' && s[16] == '_' && s[19] == '.'
      && StampFields(s) && AllDigits(s[20..26]) && ParseMicros(s) == t
  {
    StampReadsBack(t, '-', ' ', '_');
    MicrosReadsBack(t, '-', ' ', '_');
  }

  /** Two times with the same `.%f` stamp are the same time, so distinct `on_time`s name distinct videos. */
  lemma DashedMicrosInjective(t1: DateTime, t2: DateTime)
    requires ValidTime(t1) && ValidTime(t2) && DashedMicros(t1) == DashedMicros(t2)
    ensures t1 == t2
  {
    DashedMicrosReadsBack(t1);
    DashedMicrosReadsBack(t2);
  }

  /** Two times with the same event stamp are the same time. */
  lemma EventStampInjective(t1: DateTime, t2: DateTime)
    requires ValidTime(t1) && ValidTime(t2) && EventStamp(t1) == EventStamp(t2)
    ensures t1 == t2
  {
    EventStampReadsBack(t1);
    EventStampReadsBack(t2);
  }

  /** Reads a `Compact` stamp back into its fields (microseconds are not part of the stamp). */
  function ParseCompact(s: string): DateTime
    requires |s| == 15 && AllDigits(s[..8]) && AllDigits(s[9..])
  {
    DateTime(DecimalValue(s[0..4]), DecimalValue(s[4..6]), DecimalValue(s[6..8]),
             DecimalValue(s[9..11]), DecimalValue(s[11..13]), DecimalValue(s[13..15]), 0)
  }

  /** The compact stamp loses nothing but the microseconds. */
  lemma CompactReadsBack(t: DateTime)
    requires ValidTime(t)
    ensures var s := Compact(t); AllDigits(s[..8]) && AllDigits(s[9..]) && ParseCompact(s) == t.(micro := 0)
  {
    var s := Compact(t);
    var y, mo, d := Pad(t.year, 4), Pad(t.month, 2), Pad(t.day, 2);
    var h, mi, se := Pad(t.hour, 2), Pad(t.minute, 2), Pad(t.second, 2);
    assert s == y + mo + d + "_" + h + mi + se;
    assert s[0..4] == y && s[4..6] == mo && s[6..8] == d;
    assert s[9..11] == h && s[11..13] == mi && s[13..15] == se;
    PadReadsBack(t.year, 4); PadReadsBack(t.month, 2); PadReadsBack(t.day, 2);
    PadReadsBack(t.hour, 2); PadReadsBack(t.minute, 2); PadReadsBack(t.second, 2);
  }

  /** `f"{stamp}_Sample{sample}_Session{session}"`: the common stem of every session's files. */
  function SessionStem(stamp: string, sample: string, session: nat): string {
    stamp + "_Sample" + sample + "_Session" + NatToString(session)
  }

  /** `generate_filename(base_time, sample_number, session_number, suffix)`. */
  function GenerateFilename(base: DateTime, sample: string, session: nat, suffix: string): string
    requires ValidTime(base)
  {
    SessionStem(Compact(base), sample, session) + "_" + suffix
  }

  /** Number of leading ASCII digits of `s`. */
  function LeadingDigits(s: string): nat {
    if |s| == 0 || !IsDigit(s[0]) then 0 else 1 + LeadingDigits(s[1..])
  }

  /** In `x + [sep] + a` with `x` all digits and `sep` not a digit, the digits end at `sep`. */
  lemma {:induction false} LeadingDigitsBeforeSeparator(x: string, sep: char, a: string)
    requires AllDigits(x) && !IsDigit(sep)
    ensures LeadingDigits(x + [sep] + a) == |x|
  {
    if |x| > 0 {
      assert (x + [sep] + a)[1..] == x[1..] + [sep] + a;
      LeadingDigitsBeforeSeparator(x[1..], sep, a);
    }
  }

  /**
   * A stem, a decimal number and a non-digit separator: the number ends where the digits
   * end, so two such strings with a common stem agree on the number, the separator and the rest.
   */
  lemma StemThenSeparatorInjective(p: string, m: nat, n: nat, sep1: char, sep2: char, a: string, b: string)
    requires !IsDigit(sep1) && !IsDigit(sep2)
    requires p + NatToString(m) + [sep1] + a == p + NatToString(n) + [sep2] + b
    ensures m == n && sep1 == sep2 && a == b
  {
    var x, y := NatToString(m), NatToString(n);
    var u, v := p + x + [sep1] + a, p + y + [sep2] + b;
    assert u[|p|..] == x + [sep1] + a;
    assert v[|p|..] == y + [sep2] + b;
    LeadingDigitsBeforeSeparator(x, sep1, a);
    LeadingDigitsBeforeSeparator(y, sep2, b);
    assert x == u[|p|..|p| + |x|];
    assert y == v[|p|..|p| + |y|];
    NatToStringInjective(m, n);
    assert sep1 == u[|p| + |x|] && sep2 == v[|p| + |y|];
    assert a == u[|p| + |x| + 1..];
    assert b == v[|p| + |y| + 1..];
  }

  /**
   * With the same start time and sample, a file name determines its session number and
   * suffix, so no two sessions, and no video and log of one session, share a file.
   */
  lemma GenerateFilenameInjective(base: DateTime, sample: string, j: nat, k: nat, suffix1: string, suffix2: string)
    requires ValidTime(base)
    requires GenerateFilename(base, sample, j, suffix1) == GenerateFilename(base, sample, k, suffix2)
    ensures j == k && suffix1 == suffix2
  {
    var p := Compact(base) + "_Sample" + sample + "_Session";
    assert GenerateFilename(base, sample, j, suffix1) == p + NatToString(j) + ['_'] + suffix1;
    assert GenerateFilename(base, sample, k, suffix2) == p + NatToString(k) + ['_'] + suffix2;
    StemThenSeparatorInjective(p, j, k, '_', '_', suffix1, suffix2);
  }
}
