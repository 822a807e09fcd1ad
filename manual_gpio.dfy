/**
 * The manual output test: keys '1'..'6' drive one camera output HIGH, 'l' or 'L' drives
 * all six LOW, 'q' or 'Q' ends the loop. Any other key does nothing. The six outputs are
 * the camera pins of `Gpio`, in the same order.
 */
module ManualGpio {
  import opened Wrappers
  import opened Gpio

  /** The key's entry in the pin map: '1'..'6' name the outputs at index 0..5, other keys none. */
  function PinIndex(key: char): (r: Option<nat>)
    ensures r.Some? <==> '1' <= key <= '6'
    ensures r.Some? ==> r.value < 6
  {
    if '1' <= key <= '6' then Some((key as int - '1' as int) as nat) else None
  }

  /** The map sends '1'..'6' to BCM pins 14, 15, 18, 23, 24 and 25. */
  lemma GpioMap()
    ensures CAMERA_PINS[PinIndex('1').value] == 14 && CAMERA_PINS[PinIndex('2').value] == 15
    ensures CAMERA_PINS[PinIndex('3').value] == 18 && CAMERA_PINS[PinIndex('4').value] == 23
    ensures CAMERA_PINS[PinIndex('5').value] == 24 && CAMERA_PINS[PinIndex('6').value] == 25
  {
  }

  /** `key.lower() == 'l'` */
  predicate IsL(key: char) {
    key == 'l' || key == 'L'
  }

  /** `key.lower() == 'q'` */
  predicate IsQ(key: char) {
    key == 'q' || key == 'Q'
  }

  /** The levels after one key: a mapped key raises its pin, 'l' lowers all six in order, other keys change nothing. */
  function Press(levels: seq<bool>, key: char): (r: seq<bool>)
    requires |levels| == 6
    ensures |r| == 6
  {
    match PinIndex(key)
    case Some(i) => levels[i := true]
    case None =>
      if IsL(key) then ApplyAllLength(levels, CentreWrites()); ApplyAll(levels, CentreWrites())
      else levels
  }

  /** The levels after a run of keys, in order. */
  function PressAll(levels: seq<bool>, keys: seq<char>): (r: seq<bool>)
    requires |levels| == 6
    ensures |r| == 6
  {
    if |keys| == 0 then levels else Press(PressAll(levels, keys[..|keys| - 1]), keys[|keys| - 1])
  }

  /** The number of keys the loop reads: up to and including the first 'q', or all of them. */
  function KeysRead(keys: seq<char>): (n: nat)
    ensures n <= |keys|
    ensures forall j :: 0 <= j < n - 1 ==> !IsQ(keys[j])
    ensures (n > 0 && IsQ(keys[n - 1])) || (n == |keys| && forall j :: 0 <= j < |keys| ==> !IsQ(keys[j]))
  {
    if |keys| == 0 then 0
    else if IsQ(keys[0]) then 1
    else 1 + KeysRead(keys[1..])
  }

  // ---------------------------------------------------------------------------------
  // The script, on the six output levels

  /** The setup: every output driven LOW, in map order. */
  method SetUp(pins: array<bool>)
    requires pins.Length == 6
    modifies pins
    ensures pins[..] == AllLow()
  {
    WritePins(pins, CentreWrites());
    BranchWritesEnd(old(pins[..]), 1);
  }

  /** One key of the loop; `quit` says the loop breaks. */
  method PressKey(pins: array<bool>, key: char) returns (quit: bool)
    requires pins.Length == 6
    modifies pins
    ensures pins[..] == Press(old(pins[..]), key)
    ensures quit <==> IsQ(key)
  {
    quit := false;
    var index := PinIndex(key);
    if index.Some? {
      pins[index.value] := true;
    } else if IsL(key) {
      WritePins(pins, CentreWrites());
    } else if IsQ(key) {
      quit := true;
    }
  }

  /** The `while True` loop over the keys typed; `read` is how many it consumed. */
  method KeyLoop(pins: array<bool>, keys: seq<char>) returns (read: nat)
    requires pins.Length == 6
    modifies pins
    ensures read == KeysRead(keys)
    ensures pins[..] == PressAll(old(pins[..]), keys[..read])
  {
    ghost var p0 := pins[..];
    read := 0;
    var quit := false;
    while read < |keys| && !quit
      invariant 0 <= read <= |keys|
      invariant pins.Length == 6
      invariant pins[..] == PressAll(p0, keys[..read])
      invariant quit ==> read > 0 && IsQ(keys[read - 1])
      invariant !quit ==> forall j :: 0 <= j < read ==> !IsQ(keys[j])
      invariant forall j :: 0 <= j < read - 1 ==> !IsQ(keys[j])
    {
      assert keys[..read + 1][..read] == keys[..read];
      quit := PressKey(pins, keys[read]);
      read := read + 1;
    }
    FirstQuit(keys, read);
  }

  /** The loop stops after the first 'q', or at the end of the keys when there is none. */
  lemma {:induction false} FirstQuit(keys: seq<char>, n: nat)
    requires n <= |keys|
    requires (n > 0 && IsQ(keys[n - 1])) || n == |keys|
    requires forall j :: 0 <= j < n - 1 ==> !IsQ(keys[j])
    ensures KeysRead(keys) == n
  {
    if n > 0 && |keys| > 0 && !IsQ(keys[0]) {
      FirstQuit(keys[1..], n - 1);
    }
  }

  /** The whole script: setup, then the key loop from all outputs LOW. */
  method ManualSession(pins: array<bool>, keys: seq<char>) returns (read: nat)
    requires pins.Length == 6
    modifies pins
    ensures read == KeysRead(keys)
    ensures pins[..] == PressAll(AllLow(), keys[..read])
  {
    SetUp(pins);
    read := KeyLoop(pins, keys);
  }

  // ---------------------------------------------------------------------------------
  // Properties

  /** A mapped key raises its own output and leaves the other five as they were. */
  lemma DigitSetsOnlyItsPin(levels: seq<bool>, key: char, i: nat)
    requires |levels| == 6 && PinIndex(key) == Some(i)
    ensures forall j :: 0 <= j < 6 ==> Press(levels, key)[j] == (levels[j] || j == i)
  {
  }

  /** 'l' or 'L' leaves every output LOW, whatever was HIGH before. */
  lemma LClearsAll(levels: seq<bool>, key: char)
    requires |levels| == 6 && IsL(key)
    ensures Press(levels, key) == AllLow()
  {
    BranchWritesEnd(levels, 1);
  }

  /** Every other key, 'q' included, leaves the outputs as they were. */
  lemma OtherKeysNothing(levels: seq<bool>, key: char)
    requires |levels| == 6 && PinIndex(key).None? && !IsL(key)
    ensures Press(levels, key) == levels
  {
  }

  /**
   * Without an 'l' among the keys, an output ends HIGH exactly when it was HIGH before or
   * one of the keys names it: a key never lowers another output.
   */
  lemma {:induction false} HighUntilCleared(levels: seq<bool>, keys: seq<char>, i: nat)
    requires |levels| == 6 && i < 6
    requires forall j :: 0 <= j < |keys| ==> !IsL(keys[j])
    ensures PressAll(levels, keys)[i] <==> levels[i] || exists j :: 0 <= j < |keys| && PinIndex(keys[j]) == Some(i)
  {
    if |keys| > 0 {
      var init := keys[..|keys| - 1];
      var last := keys[|keys| - 1];
      HighUntilCleared(levels, init, i);
      if PressAll(levels, keys)[i] && !levels[i] {
        if PressAll(levels, init)[i] {
          var j :| 0 <= j < |init| && PinIndex(init[j]) == Some(i);
          assert keys[j] == init[j];
        } else {
          assert PinIndex(keys[|keys| - 1]) == Some(i);
        }
      }
      if exists j :: 0 <= j < |keys| && PinIndex(keys[j]) == Some(i) {
        var j :| 0 <= j < |keys| && PinIndex(keys[j]) == Some(i);
        if j < |keys| - 1 {
          assert init[j] == keys[j];
        }
      }
    }
  }

  /** Unlike the tracking scripts, two outputs can be HIGH together: '1' then '2' raises both. */
  lemma SeveralHigh()
    ensures !AtMostOneHigh(PressAll(AllLow(), ['1', '2']))
  {
    var keys := ['1', '2'];
    assert keys[..1] == ['1'] && keys[..1][..0] == [];
    var p := PressAll(AllLow(), keys);
    assert p[0] && p[1];
  }
}
