/**
 * The helpers of the object-detection tracker: the labels-file parser, the score filter
 * over the detector's output tensors, and the mapping from a detection's centre to a
 * camera code (whose pin writes are all commented out).
 */
module ObjectTrack {
  import opened Text
  import opened Geometry
  import opened Gpio

  const CENTER_RADIUS: int := 30

  // ---------------------------------------------------------------------------------
  // load_labels

  /**
   * The ASCII characters `str.strip()` and `\s` treat as whitespace: tab, line feed, vertical
   * tab, form feed, carriage return (9..13), the separators 28..31 and the space.
   */
  predicate IsSpace(c: char) {
    c == ' ' || 9 as char <= c <= 13 as char || 28 as char <= c <= 31 as char
  }

  /** A character of the separator class `[:\s]`. */
  predicate IsSep(c: char) {
    c == ':' || IsSpace(c)
  }

  /** `s.lstrip()`: the suffix left after the leading whitespace. */
  function LStrip(s: string): (r: string)
    ensures |r| <= |s| && r == s[|s| - |r|..]
    ensures forall k :: 0 <= k < |s| - |r| ==> IsSpace(s[k])
    ensures |r| > 0 ==> !IsSpace(r[0])
  {
    if |s| > 0 && IsSpace(s[0]) then LStrip(s[1..]) else s
  }

  /** `s.rstrip()`: the prefix left before the trailing whitespace. */
  function RStrip(s: string): (r: string)
    ensures |r| <= |s| && r == s[..|r|]
    ensures forall k :: |r| <= k < |s| ==> IsSpace(s[k])
    ensures |r| > 0 ==> !IsSpace(r[|r| - 1])
  {
    if |s| > 0 && IsSpace(s[|s| - 1]) then RStrip(s[..|s| - 1]) else s
  }

  /** `s.strip()` */
  function Strip(s: string): (r: string)
    ensures |r| > 0 ==> !IsSpace(r[0]) && !IsSpace(r[|r| - 1])
  {
    LStrip(RStrip(s))
  }

  /** Position of the first separator character, or |s| if there is none. */
  function FirstSep(s: string): (i: nat)
    ensures i <= |s|
    ensures forall k :: 0 <= k < i ==> !IsSep(s[k])
    ensures i < |s| ==> IsSep(s[i])
  {
    if |s| == 0 || IsSep(s[0]) then 0 else 1 + FirstSep(s[1..])
  }

  /** The suffix after a leading run of separators. */
  function SkipSeps(s: string): (r: string)
    ensures |r| <= |s| && r == s[|s| - |r|..]
    ensures forall k :: 0 <= k < |s| - |r| ==> IsSep(s[k])
    ensures |r| > 0 ==> !IsSep(r[0])
  {
    if |s| > 0 && IsSep(s[0]) then SkipSeps(s[1..]) else s
  }

  /** `re.split(r'[:\s]+', s, maxsplit=1)`: split at the first run of separators, if any. */
  function SplitOnce(s: string): (pair: seq<string>)
    ensures 1 <= |pair| <= 2
  {
    var i := FirstSep(s);
    if i == |s| then [s] else [s[..i], SkipSeps(s[i..])]
  }

  /** `str.isdigit()` on ASCII text: non-empty and all digits. */
  predicate IsDecimal(s: string) {
    |s| > 0 && AllDigits(s)
  }

  /** The key and value one line of the labels file stores. */
  function Entry(row: nat, content: string): (int, string) {
    var pair := SplitOnce(Strip(content));
    if |pair| == 2 && IsDecimal(Strip(pair[0])) then (DecimalValue(Strip(pair[0])) as int, Strip(pair[1]))
    else (row as int, Strip(pair[0]))
  }

  /** The key and value stored by each line, in file order. */
  function Entries(lines: seq<string>): (es: seq<(int, string)>)
    ensures |es| == |lines|
  {
    seq(|lines|, r requires 0 <= r < |lines| => Entry(r, lines[r]))
  }

  /** The dictionary after assigning the entries one by one. */
  function Assign(es: seq<(int, string)>): map<int, string> {
    if |es| == 0 then map[] else Assign(es[..|es| - 1])[es[|es| - 1].0 := es[|es| - 1].1]
  }

  function LabelsOf(lines: seq<string>): map<int, string> {
    Assign(Entries(lines))
  }

  /** The `for row_number, content in enumerate(lines)` loop. */
  method LoadLabels(lines: seq<string>) returns (labels: map<int, string>)
    ensures labels == LabelsOf(lines)
  {
    labels := map[];
    var rowNumber := 0;
    while rowNumber < |lines|
      invariant 0 <= rowNumber <= |lines|
      invariant labels == Assign(Entries(lines)[..rowNumber])
    {
      var e := Entry(rowNumber, lines[rowNumber]);
      AssignOneMore(Entries(lines), rowNumber);
      labels := labels[e.0 := e.1];
      rowNumber := rowNumber + 1;
    }
    assert Entries(lines)[..rowNumber] == Entries(lines);
  }

  lemma AssignOneMore(es: seq<(int, string)>, i: nat)
    requires i < |es|
    ensures Assign(es[..i + 1]) == Assign(es[..i])[es[i].0 := es[i].1]
  {
    assert es[..i + 1][..i] == es[..i];
  }

  /** Stripping text that neither starts nor ends with whitespace changes nothing. */
  lemma StripTrimmed(s: string)
    requires |s| > 0 ==> !IsSpace(s[0]) && !IsSpace(s[|s| - 1])
    ensures Strip(s) == s
  {
  }

  /** Text without separators is already stripped. */
  lemma NoSepTrimmed(t: string)
    requires forall k :: 0 <= k < |t| ==> !IsSep(t[k])
    ensures Strip(t) == t
  {
    if |t| > 0 {
      assert !IsSep(t[0]) && !IsSep(t[|t| - 1]);
    }
    StripTrimmed(t);
  }

  /** What follows the first separator run of stripped text is stripped too. */
  lemma RestTrimmed(s: string, i: nat)
    requires i <= |s| && (|s| > 0 ==> !IsSpace(s[|s| - 1]))
    ensures Strip(SkipSeps(s[i..])) == SkipSeps(s[i..])
  {
    var rest := SkipSeps(s[i..]);
    if |rest| > 0 {
      assert rest == s[|s| - |rest|..];
      assert rest[|rest| - 1] == s[|s| - 1];
      assert !IsSep(rest[0]);
    }
    StripTrimmed(rest);
  }

  /** Both parts of a split of stripped text are already stripped. */
  lemma SplitTrimmed(s: string)
    requires |s| > 0 ==> !IsSpace(s[|s| - 1])
    ensures var pair := SplitOnce(s);
      Strip(pair[0]) == pair[0] && (|pair| == 2 ==> Strip(pair[1]) == pair[1])
  {
    var i := FirstSep(s);
    NoSepTrimmed(s[..i]);
    RestTrimmed(s, i);
    if i == |s| {
      assert s[..i] == s;
    }
  }

  /**
   * A line is indexed when its stripped text splits in two and the first token is digits:
   * the number keys the rest. Otherwise the row number keys the first token alone, so words
   * after it are dropped and a blank line stores "".
   */
  lemma EntryRule(row: nat, content: string)
    ensures var pair := SplitOnce(Strip(content));
      (|pair| == 2 && IsDecimal(pair[0]) ==> Entry(row, content) == (DecimalValue(pair[0]) as int, pair[1]))
      && (!(|pair| == 2 && IsDecimal(pair[0])) ==> Entry(row, content) == (row as int, pair[0]))
  {
    SplitTrimmed(Strip(content));
  }

  /** The first token is the stripped line up to its first separator; the rest starts after the run. */
  lemma SplitRule(s: string)
    ensures var i := FirstSep(s); var pair := SplitOnce(s);
      pair[0] == s[..i] && (i < |s| <==> |pair| == 2)
      && (|pair| == 2 ==> pair[1] == SkipSeps(s[i..]) && (|pair[1]| > 0 ==> !IsSep(pair[1][0])))
  {
    if FirstSep(s) == |s| {
      assert s[..|s|] == s;
    }
  }

  /** A blank line stores "" under its row number. */
  lemma BlankLine(row: nat)
    ensures Entry(row, "\n") == (row as int, "")
  {
    assert RStrip("\n") == "";
    assert Strip("\n") == "";
    assert SplitOnce("") == [""];
  }

  /**
   * A key is present exactly when some entry has it, and its value is the one of the last
   * such entry: later lines overwrite earlier ones.
   */
  lemma {:induction false} LastWriteWins(es: seq<(int, string)>, k: int)
    ensures k in Assign(es) <==> exists r :: 0 <= r < |es| && es[r].0 == k
    ensures forall r :: 0 <= r < |es| && es[r].0 == k && (forall r' :: r < r' < |es| ==> es[r'].0 != k)
                        ==> k in Assign(es) && Assign(es)[k] == es[r].1
  {
    if |es| > 0 {
      var init := es[..|es| - 1];
      var last := |es| - 1;
      LastWriteWins(init, k);
      assert forall r :: 0 <= r < last ==> init[r] == es[r];
      if es[last].0 != k {
        if exists r :: 0 <= r < |es| && es[r].0 == k {
          var r :| 0 <= r < |es| && es[r].0 == k;
          assert init[r].0 == k;
        }
      }
    }
  }

  // ---------------------------------------------------------------------------------
  // detect_objects: the score filter

  /** One result dictionary: the box, the class id and the score, as read from the tensors. */
  datatype Detection = Detection(box: seq<real>, classId: real, score: real)

  /** The indices `i < count` with `scores[i] >= threshold`, in order. */
  function Kept(scores: seq<real>, count: nat, threshold: real): (idx: seq<nat>)
    requires count <= |scores|
    ensures forall k :: 0 <= k < |idx| ==> idx[k] < count
  {
    if count == 0 then []
    else Kept(scores, count - 1, threshold) + if scores[count - 1] >= threshold then [count - 1] else []
  }

  /** The results for a list of indices, copied from the three tensors. */
  function Results(boxes: seq<seq<real>>, classes: seq<real>, scores: seq<real>, idx: seq<nat>): seq<Detection>
    requires forall k :: 0 <= k < |idx| ==> idx[k] < |boxes| && idx[k] < |classes| && idx[k] < |scores|
  {
    seq(|idx|, k requires 0 <= k < |idx| => Detection(boxes[idx[k]], classes[idx[k]], scores[idx[k]]))
  }

  /** The `for i in range(count)` loop of `detect_objects`. */
  method DetectObjects(boxes: seq<seq<real>>, classes: seq<real>, scores: seq<real>, count: nat, threshold: real)
    returns (results: seq<Detection>)
    requires count <= |boxes| && count <= |classes| && count <= |scores|
    ensures results == Results(boxes, classes, scores, Kept(scores, count, threshold))
  {
    results := [];
    var i := 0;
    while i < count
      invariant 0 <= i <= count
      invariant results == Results(boxes, classes, scores, Kept(scores, i, threshold))
    {
      if scores[i] >= threshold {
        results := results + [Detection(boxes[i], classes[i], scores[i])];
      }
      i := i + 1;
    }
  }

  /** The kept indices are increasing, and an index is kept exactly when it is below `count` and its score reaches the threshold. */
  lemma {:induction false} KeptExactly(scores: seq<real>, count: nat, threshold: real)
    requires count <= |scores|
    ensures var idx := Kept(scores, count, threshold);
      (forall a, b :: 0 <= a < b < |idx| ==> idx[a] < idx[b])
      && forall i :: i in idx <==> 0 <= i < count && scores[i] >= threshold
  {
    if count > 0 {
      KeptExactly(scores, count - 1, threshold);
    }
  }

  /** Every result copies the box, class and score at its index unchanged, and its score reaches the threshold. */
  lemma ResultsCopy(boxes: seq<seq<real>>, classes: seq<real>, scores: seq<real>, count: nat, threshold: real)
    requires count <= |boxes| && count <= |classes| && count <= |scores|
    ensures var idx := Kept(scores, count, threshold);
      var rs := Results(boxes, classes, scores, idx);
      |rs| == |idx|
      && forall k :: 0 <= k < |rs| ==>
           rs[k] == Detection(boxes[idx[k]], classes[idx[k]], scores[idx[k]]) && rs[k].score >= threshold
  {
    var idx := Kept(scores, count, threshold);
    KeptExactly(scores, count, threshold);
    forall k | 0 <= k < |idx|
      ensures scores[idx[k]] >= threshold
    {
      assert idx[k] in idx;
    }
  }

  // ---------------------------------------------------------------------------------
  // Zone to camera code

  /** `cameratriggered` for a detection centre: 0 inside the 30-pixel centre disc, else the zone. */
  function CameraCode(cx: int, cy: int): int {
    if InCenter(cx, cy, CENTER_RADIUS) then 0 else DeterminePiezone(cx, cy)
  }

  /** The mapping's effect: the code, and the output levels, which no write changes. */
  datatype Mapped = Mapped(code: int, levels: seq<bool>)

  function MapCamera(levels: seq<bool>, cx: int, cy: int): Mapped {
    Mapped(CameraCode(cx, cy), levels)
  }

  /**
   * The code is 0 exactly inside or on the centre circle and otherwise the zone, 1..6; the
   * output levels are left as they were, LOW from startup.
   */
  lemma CameraCodeRule(levels: seq<bool>, cx: int, cy: int)
    ensures var m := MapCamera(levels, cx, cy);
      (m.code == 0 <==> InCenter(cx, cy, 30))
      && (m.code != 0 ==> 1 <= m.code <= 6 && m.code == DeterminePiezone(cx, cy))
      && m.levels == levels
    ensures MapCamera(AllLow(), cx, cy).levels == AllLow()
  {
  }

  /** The centre circle is 30 pixels: its edge counts, one pixel past it does not. */
  lemma CentreRadius()
    ensures CameraCode(WIDTH / 2 + 30, HEIGHT / 2) == 0
    ensures CameraCode(WIDTH / 2 + 31, HEIGHT / 2) != 0
  {
    InCenterBoundary(30);
  }
}
