# MD_KeySwitch gesture detector in Dafny

A model of the Arduino library MD_KeySwitch, which turns the polled level of
one momentary push switch into gestures: press, double press, long press
and auto-repeated press, with software debounce. Each call of `read()`
samples the switch once and advances an eight-state machine (IDLE,
DEBOUNCE1, PRESS, LPRESS, REPEAT, DPRESS, DEBOUNCE2, WAIT) by one step,
comparing the unsigned 32-bit elapsed time `now - _timeActive` against four
16-bit thresholds, and returns one result code.

Files:

- `Flags.dfy`, module `KeyFlags`: the enable-flag byte, its four bit
  positions and the bitRead/bitSet/bitClear operations on it.
- `Fsm.dfy`, module `KeyFsm`: the result codes, the states, the 16- and
  32-bit integer types, the default thresholds, wrap-around elapsed time,
  and `Step`, the transition table of one poll as a pure function, with one
  lemma per state stating its rule. The two C fall-throughs (DEBOUNCE1 into
  PRESS, LPRESS into the repeat check) are the shared rules `PressRule` and
  `RepeatRule`.
- `Trace.dfy`, module `KeyTrace`: `Run`, a sequence of polls, and the
  multi-poll properties (WAIT blocks re-triggering, debounce ignores bounce,
  auto repeat goes on for ever, IDLE is not left without a press).
- `KeySwitch.dfy`, module `KeySwitch`: the class `KeySwitch` with the
  library's fields, the constructor, the eight setters and `Read`. `Read`
  is the sequential switch of the library; a local variable holding the
  case being executed makes the fall-throughs explicit. Its postcondition
  says that the new state and time stamp and the result are those of
  `KeyFsm.Step`, and that thresholds and flags are unchanged.
- `Scenarios.dfy`, module `KeyScenarios`: callers that build a switch with
  the defaults and poll it along concrete sequences, each with the exact
  results the library gives.

The sampled level and the clock reading are parameters of `Read` (`level`
is the already-compared `digitalRead(_pin) == _onState`, `now` the
`millis()` reading).

Where descriptions of the library and its code differ, the model follows
the code. Only the first point below is a conflict inside the library
itself; the timing of the next two is also what the header comment at
src/MD_KeySwitch.h:41-42 says (all times are measured from when the switch
is first detected):

- `enableRepeatResult` stores its bit, but no poll reads it: a repeat is
  always reported as `KS_PRESS`, and `KS_RPTPRESS` is never returned
  (`KeyFsm.Step`, `KeyTrace.Run`), although the header comments at
  src/MD_KeySwitch.h:50 and :64 describe a distinct repeat code.
- Entering LPRESS does not start a new timing window: the first repeat is
  due `_timeRepeat` after the original edge, not after the long press
  (`KeyFsm.PressHeld` with `KeyFsm.RepeatHeld`; concretely
  `KeyScenarios.FirstRepeatFromEdge`, where the repeat comes 190 ms after
  the poll that entered LPRESS).
- The double-press window is measured from the first edge, not from the
  release (`KeyScenarios.DoublePressTimeout`).
- DEBOUNCE1 ignores the level, so a blip shorter than the debounce window,
  seen released after the window, is a press (or a double-press candidate),
  not "no gesture" (`KeyScenarios.BlipIsAPress`).
- A second tap seen released at the first poll after the second debounce
  window is a plain press, not a double press: the level is taken at that
  poll only (`KeyScenarios.SecondTapTooShort`).
- A switch left in an unknown state behaves as WAIT in the code; the Dafny
  state type has exactly the eight states, so that case does not arise.

## Model

| member | source | states |
|---|---|---|
| KeyFlags.FeatureBitsDistinct | src/MD_KeySwitch.h:50-53 | the repeat-result, double-press, long-press and repeat bits are four different positions |
| KeyFlags.BitRead | src/MD_KeySwitch.cpp:74 | bitRead (also at lines 91, 107, 109 and 133): bit n reads one exactly when masking the byte with a one at position n leaves something |
| KeyFlags.BitSet | src/MD_KeySwitch.h:75-78 | bitSet makes bit n one and keeps every other bit |
| KeyFlags.BitClear | src/MD_KeySwitch.h:75-78 | bitClear makes bit n zero and keeps every other bit |
| KeyFlags.WithBit | src/MD_KeySwitch.h:75-78 | the enableX(f) body: bit n reads f afterwards, every other bit keeps its value |
| KeyFlags.WithBitIdempotent | src/MD_KeySwitch.h:75-78 | enableX(f) twice is the same byte as enableX(f) once |
| KeyFlags.WithBitLastWins | src/MD_KeySwitch.h:75-78 | only the last enableX call counts; enableX(true) then enableX(false) leaves the bit clear whatever it was |
| KeyFlags.WithBitCommutes | src/MD_KeySwitch.h:75-78 | enabling or disabling two different features in either order gives the same byte |
| KeyFsm.Elapsed | src/MD_KeySwitch.cpp:62 | unsigned 32-bit `now - _timeActive`: added to the start modulo 2^32 it gives `now`; equal to the plain difference without a wrap |
| KeyFsm.ElapsedAfter | src/MD_KeySwitch.cpp:142 | elapsed time is exact across a wrap of the millisecond clock for any duration below 2^32 ms |
| KeyFsm.PressRule | src/MD_KeySwitch.cpp:69-99 | the PRESS case, also the target of the DEBOUNCE1 fall-through: never restarts the window; reports at most a press, exactly when released with double press off or held past the long-press time with long press and repeat off, ending in IDLE or WAIT respectively; goes to DPRESS exactly when released with double press on |
| KeyFsm.RepeatRule | src/MD_KeySwitch.cpp:115-135 | the REPEAT case, also the target of the LPRESS fall-through: reports at most a press, exactly when held and the repeat time has passed, and then restarts the window now in REPEAT or WAIT by the repeat bit; otherwise the time stamp is kept, and a release goes to IDLE |
| KeyFsm.Step | src/MD_KeySwitch.cpp:41-177 | one poll never yields KS_RPTPRESS; any gesture ends in IDLE, WAIT or REPEAT; KS_LONGPRESS only from LPRESS with its bit set; KS_DPRESS only from DEBOUNCE2 with the key held; the time stamp only ever becomes `now`, and only on IDLE→DEBOUNCE1, a repeat, DPRESS→DEBOUNCE2 and DEBOUNCE2→WAIT |
| KeyFsm.IdleRule | src/MD_KeySwitch.cpp:49-56 | IDLE reports nothing and is left exactly when the level is active, into DEBOUNCE1 with the window starting now |
| KeyFsm.DebounceHolds | src/MD_KeySwitch.cpp:58-63 | inside the debounce window DEBOUNCE1 and DEBOUNCE2 (lines 155-160 too) report nothing and change nothing, whatever the level |
| KeyFsm.Debounce1Expires | src/MD_KeySwitch.cpp:64-67 | once the first debounce is over the same poll is a PRESS poll, timed from the original edge |
| KeyFsm.PressHeld | src/MD_KeySwitch.cpp:82-98 | PRESS held stays until the long-press time since the edge, then goes to LPRESS if long press or repeat is on, else reports a press and goes to WAIT |
| KeyFsm.PressReleased | src/MD_KeySwitch.cpp:69-81 | PRESS released goes to DPRESS if double press is on, else reports a press and goes to IDLE |
| KeyFsm.LPressEnds | src/MD_KeySwitch.cpp:101-112 | LPRESS released, or with repeat off, reports a long press (a press if long press is off) and goes to WAIT |
| KeyFsm.RepeatHeld | src/MD_KeySwitch.cpp:113-135 | LPRESS held with repeat on, and REPEAT held, report a press exactly when the repeat time has passed; the window then restarts now, in REPEAT if repeat is on else in WAIT; otherwise nothing changes |
| KeyFsm.RepeatReleased | src/MD_KeySwitch.cpp:115-123 | a release in REPEAT goes to IDLE and reports nothing |
| KeyFsm.DPressRule | src/MD_KeySwitch.cpp:137-153 | DPRESS held goes to DEBOUNCE2 with the window starting now, without a time check; released, it reports a press and goes to IDLE once the double-press time has passed, else nothing changes |
| KeyFsm.Debounce2Expires | src/MD_KeySwitch.cpp:155-165 | after the second debounce: a double press if still held, else a press; the window restarts now and the state is WAIT |
| KeyFsm.WaitRule | src/MD_KeySwitch.cpp:167-173 | WAIT never reports; it stays while held and goes to IDLE on the first release |
| KeyTrace.Run | src/MD_KeySwitch.cpp:41-45 | over any sequence of polls, one result per poll and none of them KS_RPTPRESS |
| KeyTrace.GestureEndStates | src/MD_KeySwitch.cpp:47-174 | in any sequence of polls, whenever poll i reports a gesture, the state after the first i+1 polls is IDLE, WAIT or REPEAT |
| KeyTrace.HeldInWait | src/MD_KeySwitch.cpp:167-173 | however many polls with the key held, WAIT reports nothing and is not left |
| KeyTrace.NoRetriggerUntilRelease | src/MD_KeySwitch.cpp:107-111 | after a poll that ends in WAIT, the following held polls report nothing until a release |
| KeyTrace.ReleasedInIdle | src/MD_KeySwitch.cpp:49-56 | without an active level IDLE is never left and nothing is reported |
| KeyTrace.DebounceIgnoresBounce | src/MD_KeySwitch.cpp:58-63 | any number of polls inside a debounce window, with any levels, report nothing and leave state and time stamp alone |
| KeyTrace.RepeatForever | src/MD_KeySwitch.cpp:125-135 | held in REPEAT with repeat on and polled at each repeat boundary, every poll reports a press and the state stays REPEAT, across clock wraps |
| KeySwitch.KeySwitch.constructor | src/MD_KeySwitch.cpp:24-31 | a new switch is IDLE with thresholds 50/250/450/650 ms and double press, long press and repeat enabled; repeat result is off |
| KeySwitch.KeySwitch.SetDebounceTime | src/MD_KeySwitch.h:71 | stores the debounce time and changes nothing else, no enable bit in particular |
| KeySwitch.KeySwitch.SetDoublePressTime | src/MD_KeySwitch.h:72 | stores the double-press time and sets exactly the double-press bit |
| KeySwitch.KeySwitch.SetLongPressTime | src/MD_KeySwitch.h:73 | stores the long-press time and sets exactly the long-press bit |
| KeySwitch.KeySwitch.SetRepeatTime | src/MD_KeySwitch.h:74 | stores the repeat time and sets exactly the repeat bit |
| KeySwitch.KeySwitch.EnableDoublePress | src/MD_KeySwitch.h:75 | the double-press bit becomes f; the other bits and all other fields are unchanged |
| KeySwitch.KeySwitch.EnableLongPress | src/MD_KeySwitch.h:76 | the long-press bit becomes f; the other bits and all other fields are unchanged |
| KeySwitch.KeySwitch.EnableRepeat | src/MD_KeySwitch.h:77 | the repeat bit becomes f; the other bits and all other fields are unchanged |
| KeySwitch.KeySwitch.EnableRepeatResult | src/MD_KeySwitch.h:78 | the repeat-result bit becomes f; the other bits and all other fields are unchanged |
| KeySwitch.KeySwitch.Read | src/MD_KeySwitch.cpp:41-177 | the sequential switch with its fall-throughs computes exactly the transition table `Step`: new state, new time stamp and result; thresholds and flags are left unchanged |
| KeyScenarios.HeldWithRepeat | src/MD_KeySwitch.cpp:101-135 | held from t=0 and polled at 0, 10, 60, 460, 1110, 1760 ms: nothing four times, then a press at each of the last two polls |
| KeyScenarios.FirstRepeatFromEdge | src/MD_KeySwitch.cpp:86-92 | held from t=0 and polled at 0, 10, 60, 460, 650 ms: entering LPRESS at 460 keeps the edge's time stamp, so the poll at 650 already reports a press |
| KeyScenarios.DoublePress | src/MD_KeySwitch.cpp:137-165 | press, release, press held past the second debounce: one double press, then nothing on the release |
| KeyScenarios.SecondTapTooShort | src/MD_KeySwitch.cpp:155-165 | a second tap seen released at the first poll after its debounce window gives a press, not a double press |
| KeyScenarios.DoublePressTimeout | src/MD_KeySwitch.cpp:137-147 | after press and release the press is reported at the first poll at least 250 ms after the first edge (at 300 ms), once |
| KeyScenarios.LongPressOnce | src/MD_KeySwitch.cpp:101-112 | with repeat off, a long hold gives exactly one long press and nothing more while held or after release |
| KeyScenarios.EarlyPressWithoutLongPress | src/MD_KeySwitch.cpp:58-98 | with long press and repeat off, a hold past the long-press time is a press, reported in the very poll that ends the first debounce |
| KeyScenarios.BlipIsAPress | src/MD_KeySwitch.cpp:58-81 | with double press off, a 20 ms blip seen released after the debounce window is reported as a press |
| KeyScenarios.PressAcrossClockWrap | src/MD_KeySwitch.cpp:137-147 | a press whose edge is 20 ms before the clock wraps is timed correctly and reported 320 ms after the edge |

## Left out

- `begin()` and its `pinMode` call: hardware set-up, no state of the machine.
- `digitalRead(_pin) == _onState`: the comparison is done by the caller; `Read` takes its boolean result. The constructor therefore takes neither the pin nor the active polarity, and the fields `_pin` and `_onState` are not modelled (`read()` reads them only in the level comparison at src/MD_KeySwitch.cpp:44, which the caller now does).
- `millis()`: `Read` takes one clock reading `now` per poll. The library reads the clock at most twice in one call: at lines 62 and 86 of src/MD_KeySwitch.cpp when DEBOUNCE1 falls into PRESS, at lines 127 and 134 in REPEAT, and at lines 159 and 163 in DEBOUNCE2 (IDLE and DPRESS read it once); the model assumes both readings give the same value.
- The DEBUG/PRINT macros: diagnostics only.
- The empty destructor.
- The `default:` label of the switch: the Dafny state type has only the eight states, so an unrecognised state cannot occur.
- KeySwitch.KeySwitch.constructor: `_enableFlags` and `_timeActive` are left uninitialised by the library; the model starts them at 0, so the constructor states that the repeat-result bit is off, which the library does not promise. No poll reads that bit, and IDLE writes `_timeActive` before any poll reads it.
- The threshold ordering noted in the header (debounce < long press < repeat) is not checked by the library and is not a precondition anywhere in the model.
