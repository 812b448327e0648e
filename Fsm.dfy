/** The gesture-detection state machine of a key switch, as a pure
    transition function. One call of `Step` is one poll of the switch: it
    takes the configuration (enable flags and the four time thresholds),
    the current machine state with the time stamp of the current timing
    window, the sampled level (true = switch active) and the millisecond
    clock reading, and gives the next machine state and the result code.

    Each state has its own rule. The two places where the C switch falls
    through into the next case are the shared rules `PressRule` (entered
    from DEBOUNCE1 once the debounce window is over) and `RepeatRule`
    (entered from LPRESS while the key is held with repeat enabled). */
module KeyFsm {
  import opened KeyFlags

  const TWO32: int := 0x1_0000_0000

  /** The Arduino `uint16_t` and `uint32_t` types. */
  newtype uint16 = x: int | 0 <= x < 0x1_0000
  newtype uint32 = x: int | 0 <= x < 0x1_0000_0000

  /** Default thresholds in milliseconds. */
  const KEY_DEBOUNCE_TIME: uint16 := 50
  const KEY_DPRESS_TIME: uint16 := 250
  const KEY_LONGPRESS_TIME: uint16 := 450
  const KEY_REPEAT_TIME: uint16 := 650

  /** The result codes of one poll (keyResult_t). */
  datatype KeyResult = KsNull | KsPress | KsDPress | KsLongPress | KsRptPress

  /** The machine states (state_t). */
  datatype State = Idle | Debounce1 | Debounce2 | Press | DPress | LPress | Repeat | Wait

  /** The part of a key switch that a poll reads but never changes. */
  datatype Config = Config(
    enableFlags: bv8,
    timeDebounce: uint16,
    timeDoublePress: uint16,
    timeLongPress: uint16,
    timeRepeat: uint16)
  {
    predicate DoublePressOn() { BitRead(enableFlags, DPRESS_ENABLE) }
    predicate LongPressOn() { BitRead(enableFlags, LONGPRESS_ENABLE) }
    predicate RepeatOn() { BitRead(enableFlags, REPEAT_ENABLE) }
  }

  /** The part of a key switch that a poll updates: the state and the
      clock reading at which the current timing window began. */
  datatype Fsm = Fsm(state: State, timeActive: uint32)

  /** What one poll gives: the next machine state and the result code. */
  datatype Outcome = Outcome(next: Fsm, result: KeyResult)

  /** Unsigned 32-bit subtraction `now - since`, as the C code computes
      elapsed time: it is the number that, added to `since` modulo 2^32,
      gives `now`. */
  function Elapsed(now: uint32, since: uint32): (e: uint32)
    ensures (since as int + e as int) % TWO32 == now as int
    ensures since <= now ==> e == now - since
    ensures now < since ==> e as int == now as int + TWO32 - since as int
  {
    ((now as int - since as int) % TWO32) as uint32
  }

  /** The clock reading `d` milliseconds after `t`, on a clock that wraps
      at 2^32. */
  function After(t: uint32, d: nat): uint32 {
    ((t as int + d) % TWO32) as uint32
  }

  /** Elapsed time is exact across a wrap of the clock, as long as less
      than 2^32 milliseconds have passed. */
  lemma {:induction false} ElapsedAfter(t: uint32, d: nat)
    requires d < TWO32
    ensures Elapsed(After(t, d), t) as int == d
  {
    var n := After(t, d);
    if t as int + d < TWO32 {
      assert n as int == t as int + d;
    } else {
      assert n as int == t as int + d - TWO32;
    }
  }

  /** The rule for state PRESS, also reached from DEBOUNCE1 in the same poll.
      It never starts a new timing window and reports at most a press, on
      the way to IDLE (released, double press off) or WAIT (held past the
      long-press time with long press and repeat off). */
  function PressRule(c: Config, timeActive: uint32, level: bool, now: uint32): (r: Outcome)
    ensures r.next.timeActive == timeActive
    ensures r.result in {KsNull, KsPress}
    ensures r.result == KsPress <==>
              (!level && !c.DoublePressOn()) ||
              (level && Elapsed(now, timeActive) >= c.timeLongPress as uint32 && !c.LongPressOn() && !c.RepeatOn())
    ensures r.result == KsPress ==> r.next.state == (if level then Wait else Idle)
    ensures r.next.state == DPress <==> !level && c.DoublePressOn()
  {
    if !level then
      if c.DoublePressOn() then Outcome(Fsm(DPress, timeActive), KsNull)
      else Outcome(Fsm(Idle, timeActive), KsPress)
    else if Elapsed(now, timeActive) < c.timeLongPress as uint32 then
      Outcome(Fsm(Press, timeActive), KsNull)
    else if c.LongPressOn() || c.RepeatOn() then
      Outcome(Fsm(LPress, timeActive), KsNull)
    else
      Outcome(Fsm(Wait, timeActive), KsPress)
  }

  /** The rule for state REPEAT, also reached from LPRESS in the same poll;
      `s.state` is the state that stays if nothing happens. A press is
      reported exactly when the key is held and the repeat time since the
      window start has passed, and exactly then the window restarts. */
  function RepeatRule(c: Config, s: Fsm, level: bool, now: uint32): (r: Outcome)
    ensures r.result in {KsNull, KsPress}
    ensures r.result == KsPress <==> level && Elapsed(now, s.timeActive) >= c.timeRepeat as uint32
    ensures r.result == KsPress ==> r.next == Fsm(if c.RepeatOn() then Repeat else Wait, now)
    ensures r.result == KsNull ==> r.next.timeActive == s.timeActive
    ensures !level ==> r.next.state == Idle
  {
    if !level then
      Outcome(Fsm(Idle, s.timeActive), KsNull)
    else if Elapsed(now, s.timeActive) < c.timeRepeat as uint32 then
      Outcome(s, KsNull)
    else
      Outcome(Fsm(if c.RepeatOn() then Repeat else Wait, now), KsPress)
  }

  /** One poll of the switch: the transition table of the machine. */
  function Step(c: Config, s: Fsm, level: bool, now: uint32): (r: Outcome)
    // the distinct repeat code is never produced
    ensures r.result != KsRptPress
    // a gesture is only ever reported on the way to IDLE, WAIT or REPEAT
    ensures r.result != KsNull ==> r.next.state in {Idle, Wait, Repeat}
    // LONGPRESS needs its enable bit; DPRESS needs the second edge still held
    ensures r.result == KsLongPress ==> c.LongPressOn() && s.state == LPress
    ensures r.result == KsDPress ==> s.state == Debounce2 && level
    // a new timing window always starts at the current clock reading
    ensures r.next.timeActive == s.timeActive || r.next.timeActive == now
    // and only on these four transitions
    ensures r.next.timeActive != s.timeActive ==>
              (s.state == Idle && r.next.state == Debounce1) ||
              (s.state in {LPress, Repeat} && r.next.state in {Repeat, Wait} && r.result == KsPress) ||
              (s.state == DPress && r.next.state == Debounce2) ||
              (s.state == Debounce2 && r.next.state == Wait)
  {
    var elapsed := Elapsed(now, s.timeActive);
    match s.state
    case Idle =>
      if level then Outcome(Fsm(Debounce1, now), KsNull) else Outcome(s, KsNull)
    case Debounce1 =>
      if elapsed < c.timeDebounce as uint32 then Outcome(s, KsNull)
      else PressRule(c, s.timeActive, level, now)
    case Press =>
      PressRule(c, s.timeActive, level, now)
    case LPress =>
      if !level || !c.RepeatOn() then
        Outcome(Fsm(Wait, s.timeActive), if c.LongPressOn() then KsLongPress else KsPress)
      else RepeatRule(c, s, level, now)
    case Repeat =>
      RepeatRule(c, s, level, now)
    case DPress =>
      if !level then
        if elapsed >= c.timeDoublePress as uint32 then Outcome(Fsm(Idle, s.timeActive), KsPress)
        else Outcome(s, KsNull)
      else Outcome(Fsm(Debounce2, now), KsNull)
    case Debounce2 =>
      if elapsed < c.timeDebounce as uint32 then Outcome(s, KsNull)
      else Outcome(Fsm(Wait, now), if level then KsDPress else KsPress)
    case Wait =>
      if !level then Outcome(Fsm(Idle, s.timeActive), KsNull) else Outcome(s, KsNull)
  }

  // ---------------------------------------------------------------------
  // The transition rules, one lemma per state.

  /** IDLE is left only on an active level, into DEBOUNCE1 with a new
      window starting now; nothing is reported. */
  lemma IdleRule(c: Config, t: uint32, level: bool, now: uint32)
    ensures Step(c, Fsm(Idle, t), level, now).result == KsNull
    ensures Step(c, Fsm(Idle, t), level, now).next.state != Idle <==> level
    ensures level ==> Step(c, Fsm(Idle, t), level, now).next == Fsm(Debounce1, now)
    ensures !level ==> Step(c, Fsm(Idle, t), level, now).next == Fsm(Idle, t)
  {
  }

  /** Inside the debounce window of either debounce state the level is
      ignored: nothing is reported and nothing changes. */
  lemma DebounceHolds(c: Config, s: Fsm, level: bool, now: uint32)
    requires s.state in {Debounce1, Debounce2}
    requires Elapsed(now, s.timeActive) < c.timeDebounce as uint32
    ensures Step(c, s, level, now) == Outcome(s, KsNull)
  {
  }

  /** When the first debounce window is over, the same poll behaves as
      PRESS with the window still measured from the original edge. */
  lemma Debounce1Expires(c: Config, t: uint32, level: bool, now: uint32)
    requires Elapsed(now, t) >= c.timeDebounce as uint32
    ensures Step(c, Fsm(Debounce1, t), level, now) == Step(c, Fsm(Press, t), level, now)
  {
  }

  /** PRESS while held: waits until the long-press time since the edge,
      then goes to LPRESS if long press or repeat is enabled, otherwise
      reports a press and waits for the release. */
  lemma PressHeld(c: Config, t: uint32, now: uint32)
    ensures var r := Step(c, Fsm(Press, t), true, now);
      if Elapsed(now, t) < c.timeLongPress as uint32 then r == Outcome(Fsm(Press, t), KsNull)
      else if c.LongPressOn() || c.RepeatOn() then r == Outcome(Fsm(LPress, t), KsNull)
      else r == Outcome(Fsm(Wait, t), KsPress)
  {
  }

  /** PRESS on a release: a double-press candidate when double press is
      enabled, otherwise a press reported on the way back to IDLE. */
  lemma PressReleased(c: Config, t: uint32, now: uint32)
    ensures var r := Step(c, Fsm(Press, t), false, now);
      if c.DoublePressOn() then r == Outcome(Fsm(DPress, t), KsNull)
      else r == Outcome(Fsm(Idle, t), KsPress)
  {
  }

  /** LPRESS on a release, or with repeat disabled, reports a long press
      (or a plain press when long press is disabled) and waits for the
      release. */
  lemma LPressEnds(c: Config, t: uint32, level: bool, now: uint32)
    requires !level || !c.RepeatOn()
    ensures Step(c, Fsm(LPress, t), level, now) ==
              Outcome(Fsm(Wait, t), if c.LongPressOn() then KsLongPress else KsPress)
  {
  }

  /** LPRESS held with repeat enabled, and REPEAT held, report a press
      exactly when the repeat time since the window start has passed; the
      window then restarts now, in REPEAT while repeat is enabled and in
      WAIT otherwise. Until then nothing changes. */
  lemma RepeatHeld(c: Config, s: Fsm, now: uint32)
    requires s.state == Repeat || (s.state == LPress && c.RepeatOn())
    ensures var r := Step(c, s, true, now);
      (r.result == KsPress <==> Elapsed(now, s.timeActive) >= c.timeRepeat as uint32) &&
      (r.result == KsPress ==> r.next == Fsm(if c.RepeatOn() then Repeat else Wait, now)) &&
      (r.result != KsPress ==> r == Outcome(s, KsNull))
  {
  }

  /** A release in REPEAT ends the sequence silently. */
  lemma RepeatReleased(c: Config, t: uint32, now: uint32)
    ensures Step(c, Fsm(Repeat, t), false, now) == Outcome(Fsm(Idle, t), KsNull)
  {
  }

  /** DPRESS: a second edge starts the second debounce at once, without
      looking at the window; while released, a press is reported once the
      double-press time since the first edge has passed. */
  lemma DPressRule(c: Config, t: uint32, level: bool, now: uint32)
    ensures level ==> Step(c, Fsm(DPress, t), level, now) == Outcome(Fsm(Debounce2, now), KsNull)
    ensures !level && Elapsed(now, t) >= c.timeDoublePress as uint32 ==>
              Step(c, Fsm(DPress, t), level, now) == Outcome(Fsm(Idle, t), KsPress)
    ensures !level && Elapsed(now, t) < c.timeDoublePress as uint32 ==>
              Step(c, Fsm(DPress, t), level, now) == Outcome(Fsm(DPress, t), KsNull)
  {
  }

  /** After the second debounce window: a double press if the key is still
      held, otherwise a press; either way the window restarts and the
      machine waits for a release. */
  lemma Debounce2Expires(c: Config, t: uint32, level: bool, now: uint32)
    requires Elapsed(now, t) >= c.timeDebounce as uint32
    ensures Step(c, Fsm(Debounce2, t), level, now) ==
              Outcome(Fsm(Wait, now), if level then KsDPress else KsPress)
  {
  }

  /** WAIT reports nothing, stays while held and returns to IDLE on the
      first release. */
  lemma WaitRule(c: Config, t: uint32, level: bool, now: uint32)
    ensures Step(c, Fsm(Wait, t), level, now).result == KsNull
    ensures Step(c, Fsm(Wait, t), level, now).next == Fsm(if level then Wait else Idle, t)
  {
  }
}
