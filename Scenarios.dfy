/** Callers of the key-switch object: concrete poll sequences on a switch
    built with the default thresholds (debounce 50 ms, double press 250 ms,
    long press 450 ms, repeat 650 ms), each with the exact result codes
    the library produces. Every sample is a (level, clock reading) pair. */
module KeyScenarios {
  import opened KeyFsm
  import opened KeySwitch

  /** Held from t = 0: the first repeat fires at the first poll at least
      650 ms after the original edge, the next one 650 ms after that. */
  method HeldWithRepeat() returns (ks: seq<KeyResult>)
    ensures ks == [KsNull, KsNull, KsNull, KsNull, KsPress, KsPress]
  {
    var sw := new KeySwitch();
    var k0 := sw.Read(true, 0);     // IDLE -> DEBOUNCE1
    var k1 := sw.Read(true, 10);    // still debouncing
    var k2 := sw.Read(true, 60);    // DEBOUNCE1 -> PRESS
    var k3 := sw.Read(true, 460);   // PRESS -> LPRESS
    var k4 := sw.Read(true, 1110);  // LPRESS falls into the repeat check: first repeat
    var k5 := sw.Read(true, 1760);  // second repeat
    ks := [k0, k1, k2, k3, k4, k5];
  }

  /** Entering LPRESS does not restart the window: held from t = 0, the
      first repeat is due 650 ms after the original edge, only 190 ms
      after the poll that entered LPRESS. */
  method FirstRepeatFromEdge() returns (ks: seq<KeyResult>)
    ensures ks == [KsNull, KsNull, KsNull, KsNull, KsPress]
  {
    var sw := new KeySwitch();
    var k0 := sw.Read(true, 0);     // IDLE -> DEBOUNCE1
    var k1 := sw.Read(true, 10);    // still debouncing
    var k2 := sw.Read(true, 60);    // DEBOUNCE1 -> PRESS
    var k3 := sw.Read(true, 460);   // PRESS -> LPRESS, window not restarted
    var k4 := sw.Read(true, 650);   // 650 ms since the edge: first repeat
    ks := [k0, k1, k2, k3, k4];
  }

  /** Press, release, press again within the window and still held when
      the second debounce ends: one double press, then WAIT until release. */
  method DoublePress() returns (ks: seq<KeyResult>)
    ensures ks == [KsNull, KsNull, KsNull, KsDPress, KsNull]
  {
    var sw := new KeySwitch();
    var k0 := sw.Read(true, 0);
    var k1 := sw.Read(false, 100);  // DEBOUNCE1 over, released: DPRESS
    var k2 := sw.Read(true, 150);   // second edge: DEBOUNCE2
    var k3 := sw.Read(true, 210);   // debounce over and still held
    var k4 := sw.Read(false, 300);  // WAIT -> IDLE
    ks := [k0, k1, k2, k3, k4];
  }

  /** A second press seen released at the first poll after its debounce
      window is a plain press: only the level at that poll counts. */
  method SecondTapTooShort() returns (ks: seq<KeyResult>)
    ensures ks == [KsNull, KsNull, KsNull, KsPress]
  {
    var sw := new KeySwitch();
    var k0 := sw.Read(true, 0);
    var k1 := sw.Read(false, 100);
    var k2 := sw.Read(true, 150);
    var k3 := sw.Read(false, 210);
    ks := [k0, k1, k2, k3];
  }

  /** Press and release without a second press: the press is reported on
      the first poll at least 250 ms after the original edge, here at
      300 ms (200 ms after the release). */
  method DoublePressTimeout() returns (ks: seq<KeyResult>)
    ensures ks == [KsNull, KsNull, KsNull, KsPress, KsNull]
  {
    var sw := new KeySwitch();
    var k0 := sw.Read(true, 0);
    var k1 := sw.Read(false, 100);  // DPRESS
    var k2 := sw.Read(false, 200);  // 200 ms since the edge: keep waiting
    var k3 := sw.Read(false, 300);  // 300 ms since the edge: a press, IDLE
    var k4 := sw.Read(false, 400);
    ks := [k0, k1, k2, k3, k4];
  }

  /** Repeat disabled: held past the long-press time gives one long press,
      then nothing while held and nothing after the release. */
  method LongPressOnce() returns (ks: seq<KeyResult>)
    ensures ks == [KsNull, KsNull, KsNull, KsLongPress, KsNull, KsNull, KsNull]
  {
    var sw := new KeySwitch();
    sw.EnableRepeat(false);
    var k0 := sw.Read(true, 0);
    var k1 := sw.Read(true, 100);   // PRESS
    var k2 := sw.Read(true, 500);   // LPRESS
    var k3 := sw.Read(true, 510);   // repeat disabled: long press, WAIT
    var k4 := sw.Read(true, 2000);  // still in WAIT
    var k5 := sw.Read(false, 2100); // IDLE
    var k6 := sw.Read(false, 2200);
    ks := [k0, k1, k2, k3, k4, k5, k6];
  }

  /** Long press and repeat disabled: a hold past the long-press time is
      reported as a press as soon as it is seen, even on the poll that
      ends the first debounce. */
  method EarlyPressWithoutLongPress() returns (ks: seq<KeyResult>)
    ensures ks == [KsNull, KsPress, KsNull, KsNull]
  {
    var sw := new KeySwitch();
    sw.EnableLongPress(false);
    sw.EnableRepeat(false);
    var k0 := sw.Read(true, 0);
    var k1 := sw.Read(true, 460);   // DEBOUNCE1 -> PRESS -> press reported, WAIT
    var k2 := sw.Read(true, 900);
    var k3 := sw.Read(false, 950);
    ks := [k0, k1, k2, k3];
  }

  /** The first debounce does not look at the level: a 20 ms blip, seen
      released once the window is over, is reported as a press when double
      press is disabled. */
  method BlipIsAPress() returns (ks: seq<KeyResult>)
    ensures ks == [KsNull, KsNull, KsPress]
  {
    var sw := new KeySwitch();
    sw.EnableDoublePress(false);
    var k0 := sw.Read(true, 0);
    var k1 := sw.Read(false, 20);   // inside the debounce window: ignored
    var k2 := sw.Read(false, 60);   // window over, released: a press
    ks := [k0, k1, k2];
  }

  /** The clock wraps between the edge and the release: elapsed times are
      still right. */
  method PressAcrossClockWrap() returns (ks: seq<KeyResult>)
    ensures ks == [KsNull, KsNull, KsNull, KsNull, KsPress]
  {
    var sw := new KeySwitch();
    var k0 := sw.Read(true, 0xFFFF_FFEC);  // 20 ms before the wrap
    var k1 := sw.Read(true, 40);           // 60 ms after the edge: PRESS
    var k2 := sw.Read(false, 80);          // DPRESS
    var k3 := sw.Read(false, 200);         // 220 ms after the edge
    var k4 := sw.Read(false, 300);         // 320 ms after the edge: a press
    ks := [k0, k1, k2, k3, k4];
  }
}
