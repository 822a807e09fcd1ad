/**
 * The six camera-trigger outputs cam1..cam6 (BCM pins 14, 15, 18, 23, 24, 25) as a
 * sequence of levels, index k-1 for camera k, and the order in which a tick writes them.
 */
module Gpio {

  const CAMERA_PINS: seq<int> := [14, 15, 18, 23, 24, 25]

  predicate AtMostOneHigh(p: seq<bool>) {
    forall i, j :: 0 <= i < j < |p| ==> !(p[i] && p[j])
  }

  function AllLow(): (p: seq<bool>)
    ensures |p| == 6 && AtMostOneHigh(p)
  {
    seq(6, _ => false)
  }

  /** Only camera k's output is HIGH. */
  function OnlyCamera(k: int): (p: seq<bool>)
    requires 1 <= k <= 6
    ensures |p| == 6 && AtMostOneHigh(p) && p[k - 1]
  {
    seq(6, i => i == k - 1)
  }

  /** The output levels that go with camera code `code`: 0 for none, k for camera k. */
  function LevelsFor(code: int): seq<bool> {
    if 1 <= code <= 6 then OnlyCamera(code) else AllLow()
  }

  /** One `GPIO.output(pin, level)` call. */
  datatype Write = Write(index: nat, high: bool)

  function Apply(p: seq<bool>, w: Write): seq<bool> {
    if w.index < |p| then p[w.index := w.high] else p
  }

  /** The levels after a sequence of writes, performed in order. */
  function ApplyAll(p: seq<bool>, ws: seq<Write>): seq<bool> {
    if |ws| == 0 then p else Apply(ApplyAll(p, ws[..|ws| - 1]), ws[|ws| - 1])
  }

  lemma {:induction false} ApplyAllLength(p: seq<bool>, ws: seq<Write>)
    ensures |ApplyAll(p, ws)| == |p|
  {
    if |ws| > 0 {
      ApplyAllLength(p, ws[..|ws| - 1]);
    }
  }

  /** Writes that visit the outputs in index order, as the tracking loop does. */
  predicate InIndexOrder(ws: seq<Write>) {
    forall i :: 0 <= i < |ws| ==> ws[i].index == i
  }

  /** After writes in index order, the first |ws| outputs hold the written levels and the rest are untouched. */
  lemma {:induction false} ApplyInOrder(p: seq<bool>, ws: seq<Write>)
    requires InIndexOrder(ws) && |ws| <= |p|
    ensures ApplyAll(p, ws) == seq(|p|, i requires 0 <= i < |p| => if i < |ws| then ws[i].high else p[i])
  {
    if |ws| > 0 {
      ApplyInOrder(p, ws[..|ws| - 1]);
    }
  }

  /** The writes of the centre branch: cam1..cam6 all LOW. */
  function CentreWrites(): (ws: seq<Write>)
    ensures |ws| == 6 && InIndexOrder(ws)
  {
    seq(6, (i: nat) => Write(i, false))
  }

  /** The writes of the `zone == k` branch: cam1..cam6 in order, only cam k HIGH. */
  function ZoneWrites(k: int): (ws: seq<Write>)
    ensures |ws| == 6 && InIndexOrder(ws)
  {
    seq(6, (i: nat) => Write(i, i == k - 1))
  }

  /** Whatever the levels before, a zone branch ends with camera k alone HIGH and the centre branch with all LOW. */
  lemma BranchWritesEnd(p: seq<bool>, k: int)
    requires |p| == 6 && 1 <= k <= 6
    ensures ApplyAll(p, ZoneWrites(k)) == OnlyCamera(k)
    ensures ApplyAll(p, CentreWrites()) == AllLow()
  {
    ApplyInOrder(p, ZoneWrites(k));
    ApplyInOrder(p, CentreWrites());
  }

  /**
   * Moving from camera j to a lower-numbered camera k, the zone branch sets cam k HIGH
   * while cam j is still HIGH: for a moment two cameras are triggered.
   */
  lemma ZoneWritesOverlap(j: int, k: int)
    requires 1 <= k < j <= 6
    ensures var mid := ApplyAll(OnlyCamera(j), ZoneWrites(k)[..k]);
            |mid| == 6 && mid[k - 1] && mid[j - 1] && !AtMostOneHigh(mid)
  {
    var ws := ZoneWrites(k)[..k];
    ApplyInOrder(OnlyCamera(j), ws);
  }

  /** Clear every output first, then raise camera k: the order that never triggers two cameras. */
  function ClearThenRaise(k: int): (ws: seq<Write>)
    requires 1 <= k <= 6
  {
    CentreWrites() + [Write(k - 1, true)]
  }

  /** Clearing outputs in index order never raises one, so at most one stays HIGH throughout. */
  lemma ClearingKeepsAtMostOne(p: seq<bool>, n: nat)
    requires |p| == 6 && AtMostOneHigh(p) && n <= 6
    ensures AtMostOneHigh(ApplyAll(p, CentreWrites()[..n]))
  {
    ApplyInOrder(p, CentreWrites()[..n]);
  }

  /** `ClearThenRaise` ends with camera k alone HIGH, whatever the levels before. */
  lemma ClearThenRaiseEnds(p: seq<bool>, k: int)
    requires |p| == 6 && 1 <= k <= 6
    ensures ApplyAll(p, ClearThenRaise(k)) == OnlyCamera(k)
  {
    var ws := ClearThenRaise(k);
    assert ws[..6] == CentreWrites();
    BranchWritesEnd(p, k);
    assert ApplyAll(p, ws) == Apply(AllLow(), Write(k - 1, true));
  }

  /** Every intermediate state of `ClearThenRaise` has at most one output HIGH, and the last has camera k alone. */
  lemma ClearThenRaiseNeverOverlaps(p: seq<bool>, k: int, n: nat)
    requires |p| == 6 && AtMostOneHigh(p) && 1 <= k <= 6 && n <= 7
    ensures AtMostOneHigh(ApplyAll(p, ClearThenRaise(k)[..n]))
    ensures ApplyAll(p, ClearThenRaise(k)) == OnlyCamera(k)
  {
    var ws := ClearThenRaise(k);
    ClearThenRaiseEnds(p, k);
    if n <= 6 {
      assert ws[..n] == CentreWrites()[..n];
      ClearingKeepsAtMostOne(p, n);
    } else {
      assert ws[..n] == ws;
    }
  }

  function AllHigh(): (p: seq<bool>)
    ensures |p| == 6
  {
    seq(6, _ => true)
  }

  /** cam1..cam6 all driven HIGH, in order. */
  function RaiseAllWrites(): (ws: seq<Write>)
    ensures |ws| == 6 && InIndexOrder(ws)
  {
    seq(6, (i: nat) => Write(i, true))
  }

  lemma RaiseAllEnds(p: seq<bool>)
    requires |p| == 6
    ensures ApplyAll(p, RaiseAllWrites()) == AllHigh()
  {
    ApplyInOrder(p, RaiseAllWrites());
  }

  /** Performs a run of output writes in index order, one pin at a time, on the six levels. */
  method WritePins(pins: array<bool>, ws: seq<Write>)
    requires pins.Length == 6 && |ws| == 6 && InIndexOrder(ws)
    modifies pins
    ensures pins[..] == ApplyAll(old(pins[..]), ws)
  {
    ghost var p0 := pins[..];
    var j := 0;
    while j < |ws|
      invariant 0 <= j <= |ws|
      invariant pins[..] == ApplyAll(p0, ws[..j])
    {
      assert ws[..j + 1][..j] == ws[..j];
      pins[ws[j].index] := ws[j].high;
      j := j + 1;
    }
    assert ws[..j] == ws;
  }
}
