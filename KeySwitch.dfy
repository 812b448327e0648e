/** The key-switch object: its fields, the constructor, the configuration
    setters and `Read`, the poll that advances the state machine one step.
    `Read` is written as the sequential switch of the library, with the two
    fall-throughs made explicit; its contract ties the new state to the
    transition table `KeyFsm.Step`. */
module KeySwitch {
  import opened KeyFlags
  import opened KeyFsm

  class KeySwitch {
    var state: State
    var timeActive: uint32
    var enableFlags: bv8
    var timeDebounce: uint16
    var timeDoublePress: uint16
    var timeLongPress: uint16
    var timeRepeat: uint16

    /** What a poll reads but does not change. */
    function Cfg(): Config
      reads this
    {
      Config(enableFlags, timeDebounce, timeDoublePress, timeLongPress, timeRepeat)
    }

    /** What a poll changes. */
    function Machine(): Fsm
      reads this
    {
      Fsm(state, timeActive)
    }

    /** A new switch starts in IDLE with the default thresholds, and the
        three threshold setters it calls leave double press, long press and
        repeat enabled. */
    constructor ()
      ensures state == Idle
      ensures timeDebounce == KEY_DEBOUNCE_TIME && timeDoublePress == KEY_DPRESS_TIME
      ensures timeLongPress == KEY_LONGPRESS_TIME && timeRepeat == KEY_REPEAT_TIME
      ensures Cfg().DoublePressOn() && Cfg().LongPressOn() && Cfg().RepeatOn()
      ensures !BitRead(enableFlags, REPEAT_RESULT_ENABLE)
    {
      state := Idle;
      timeActive := 0;
      enableFlags := 0;
      new;
      SetDebounceTime(KEY_DEBOUNCE_TIME);
      SetDoublePressTime(KEY_DPRESS_TIME);
      SetLongPressTime(KEY_LONGPRESS_TIME);
      SetRepeatTime(KEY_REPEAT_TIME);
    }

    /** Changes the debounce time and nothing else (no enable bit). */
    method SetDebounceTime(t: uint16)
      modifies this`timeDebounce
      ensures timeDebounce == t
    {
      timeDebounce := t;
    }

    /** Changes the double-press time and enables double press. */
    method SetDoublePressTime(t: uint16)
      modifies this`timeDoublePress, this`enableFlags
      ensures timeDoublePress == t
      ensures enableFlags == WithBit(old(enableFlags), DPRESS_ENABLE, true)
    {
      timeDoublePress := t;
      EnableDoublePress(true);
    }

    /** Changes the long-press time and enables long press. */
    method SetLongPressTime(t: uint16)
      modifies this`timeLongPress, this`enableFlags
      ensures timeLongPress == t
      ensures enableFlags == WithBit(old(enableFlags), LONGPRESS_ENABLE, true)
    {
      timeLongPress := t;
      EnableLongPress(true);
    }

    /** Changes the repeat time and enables repeat. */
    method SetRepeatTime(t: uint16)
      modifies this`timeRepeat, this`enableFlags
      ensures timeRepeat == t
      ensures enableFlags == WithBit(old(enableFlags), REPEAT_ENABLE, true)
    {
      timeRepeat := t;
      EnableRepeat(true);
    }

    /** Sets the double-press bit to `f`; the other bits keep their values. */
    method EnableDoublePress(f: bool)
      modifies this`enableFlags
      ensures enableFlags == WithBit(old(enableFlags), DPRESS_ENABLE, f)
      ensures Cfg().DoublePressOn() == f
      ensures forall m: BitPos :: m != DPRESS_ENABLE ==> BitRead(enableFlags, m) == BitRead(old(enableFlags), m)
    {
      if f { enableFlags := BitSet(enableFlags, DPRESS_ENABLE); }
      else { enableFlags := BitClear(enableFlags, DPRESS_ENABLE); }
    }

    /** Sets the long-press bit to `f`; the other bits keep their values. */
    method EnableLongPress(f: bool)
      modifies this`enableFlags
      ensures enableFlags == WithBit(old(enableFlags), LONGPRESS_ENABLE, f)
      ensures Cfg().LongPressOn() == f
      ensures forall m: BitPos :: m != LONGPRESS_ENABLE ==> BitRead(enableFlags, m) == BitRead(old(enableFlags), m)
    {
      if f { enableFlags := BitSet(enableFlags, LONGPRESS_ENABLE); }
      else { enableFlags := BitClear(enableFlags, LONGPRESS_ENABLE); }
    }

    /** Sets the repeat bit to `f`; the other bits keep their values. */
    method EnableRepeat(f: bool)
      modifies this`enableFlags
      ensures enableFlags == WithBit(old(enableFlags), REPEAT_ENABLE, f)
      ensures Cfg().RepeatOn() == f
      ensures forall m: BitPos :: m != REPEAT_ENABLE ==> BitRead(enableFlags, m) == BitRead(old(enableFlags), m)
    {
      if f { enableFlags := BitSet(enableFlags, REPEAT_ENABLE); }
      else { enableFlags := BitClear(enableFlags, REPEAT_ENABLE); }
    }

    /** Sets the repeat-result bit to `f`; the other bits keep their
        values. No poll ever reads this bit. */
    method EnableRepeatResult(f: bool)
      modifies this`enableFlags
      ensures enableFlags == WithBit(old(enableFlags), REPEAT_RESULT_ENABLE, f)
      ensures BitRead(enableFlags, REPEAT_RESULT_ENABLE) == f
      ensures forall m: BitPos :: m != REPEAT_RESULT_ENABLE ==> BitRead(enableFlags, m) == BitRead(old(enableFlags), m)
    {
      if f { enableFlags := BitSet(enableFlags, REPEAT_RESULT_ENABLE); }
      else { enableFlags := BitClear(enableFlags, REPEAT_RESULT_ENABLE); }
    }

    /** One poll with the sampled level (true = active) and the clock
        reading `now`. Only the state and the time stamp may change; the
        thresholds and flags are left alone. */
    method Read(level: bool, now: uint32) returns (k: KeyResult)
      modifies this`state, this`timeActive
      ensures Machine() == Step(Cfg(), old(Machine()), level, now).next
      ensures k == Step(Cfg(), old(Machine()), level, now).result
      ensures Cfg() == old(Cfg())
    {
      k := KsNull;
      // `entry` is the case of the switch being executed; it moves on where
      // a case falls through into the next one
      var entry := state;
      if entry == Idle {
        if level {
          state := Debounce1;
          timeActive := now;
        }
        return;
      }
      if entry == Debounce1 {
        if Elapsed(now, timeActive) < timeDebounce as uint32 {
          return;
        }
        state := Press;
        entry := Press;
      }
      if entry == Press {
        if !level {
          if BitRead(enableFlags, DPRESS_ENABLE) {
            state := DPress;
          } else {
            k := KsPress;
            state := Idle;
          }
        } else {
          if Elapsed(now, timeActive) < timeLongPress as uint32 {
            return;
          }
          if BitRead(enableFlags, LONGPRESS_ENABLE) || BitRead(enableFlags, REPEAT_ENABLE) {
            state := LPress;
          } else {
            k := KsPress;
            state := Wait;
          }
        }
        return;
      }
      if entry == LPress {
        if !level || !BitRead(enableFlags, REPEAT_ENABLE) {
          k := if BitRead(enableFlags, LONGPRESS_ENABLE) then KsLongPress else KsPress;
          state := Wait;
          return;
        }
        entry := Repeat;
      }
      if entry == Repeat {
        if !level {
          state := Idle;
          return;
        }
        if Elapsed(now, timeActive) < timeRepeat as uint32 {
          return;
        }
        k := KsPress;
        state := if BitRead(enableFlags, REPEAT_ENABLE) then Repeat else Wait;
        timeActive := now;
        return;
      }
      if entry == DPress {
        if !level {
          if Elapsed(now, timeActive) >= timeDoublePress as uint32 {
            k := KsPress;
            state := Idle;
          }
        } else {
          state := Debounce2;
          timeActive := now;
        }
        return;
      }
      if entry == Debounce2 {
        if Elapsed(now, timeActive) < timeDebounce as uint32 {
          return;
        }
        k := if level then KsDPress else KsPress;
        timeActive := now;
        state := Wait;
        return;
      }
      // WAIT
      if !level {
        state := Idle;
      }
    }
  }
}
