/** Sequences of polls. A caller polls the switch repeatedly; `Run` feeds a
    sequence of samples (level and clock reading) through `Step` and
    collects the result codes, one per poll. The lemmas here are the
    multi-poll behaviour the design relies on. */
module KeyTrace {
  import opened KeyFlags
  import opened KeyFsm

  /** One poll: the sampled level (true = active) and the clock reading. */
  datatype Sample = Sample(level: bool, now: uint32)

  /** The machine state after a sequence of polls and the result of each poll. */
  datatype Trace = Trace(last: Fsm, results: seq<KeyResult>)

  function Run(c: Config, s: Fsm, samples: seq<Sample>): (r: Trace)
    ensures |r.results| == |samples|
    // no poll in any sequence produces the distinct repeat code
    ensures forall i :: 0 <= i < |r.results| ==> r.results[i] != KsRptPress
    decreases |samples|
  {
    if samples == [] then Trace(s, [])
    else
      var o := Step(c, s, samples[0].level, samples[0].now);
      var rest := Run(c, o.next, samples[1..]);
      Trace(rest.last, [o.result] + rest.results)
  }

  /** Every gesture in a sequence of polls is reported on the way to IDLE,
      WAIT or REPEAT: if poll `i` reports something, the state after the
      first `i + 1` polls is one of those three. */
  lemma {:induction false} GestureEndStates(c: Config, s: Fsm, samples: seq<Sample>, i: nat)
    requires i < |samples|
    requires Run(c, s, samples).results[i] != KsNull
    ensures Run(c, s, samples[..i + 1]).last.state in {Idle, Wait, Repeat}
    decreases i
  {
    var o := Step(c, s, samples[0].level, samples[0].now);
    if i == 0 {
      assert samples[..1][1..] == [];
      assert Run(c, s, samples[..1]) == Trace(o.next, [o.result]);
    } else {
      assert samples[..i + 1][1..] == samples[1..][..i];
      GestureEndStates(c, o.next, samples[1..], i - 1);
    }
  }

  predicate AllNull(rs: seq<KeyResult>) {
    forall i :: 0 <= i < |rs| ==> rs[i] == KsNull
  }

  predicate AllHeld(samples: seq<Sample>) {
    forall i :: 0 <= i < |samples| ==> samples[i].level
  }

  predicate AllReleased(samples: seq<Sample>) {
    forall i :: 0 <= i < |samples| ==> !samples[i].level
  }

  /** WAIT blocks re-triggering: however long the key stays held, nothing
      is reported and the machine stays in WAIT. */
  lemma {:induction false} HeldInWait(c: Config, s: Fsm, samples: seq<Sample>)
    requires s.state == Wait
    requires AllHeld(samples)
    ensures Run(c, s, samples) == Trace(s, Run(c, s, samples).results)
    ensures AllNull(Run(c, s, samples).results)
  {
    if samples != [] {
      assert AllHeld(samples[1..]) by {
        forall i | 0 <= i < |samples[1..]| ensures samples[1..][i].level {
          assert samples[1..][i] == samples[i + 1];
        }
      }
      HeldInWait(c, s, samples[1..]);
    }
  }

  /** A gesture that ends in WAIT is reported once: the polls after it
      report nothing until a release has been observed. */
  lemma NoRetriggerUntilRelease(c: Config, s: Fsm, first: Sample, samples: seq<Sample>)
    requires Step(c, s, first.level, first.now).next.state == Wait
    requires AllHeld(samples)
    ensures Run(c, s, [first] + samples).results[1..] == Run(c, Step(c, s, first.level, first.now).next, samples).results
    ensures AllNull(Run(c, s, [first] + samples).results[1..])
  {
    assert ([first] + samples)[1..] == samples;
    HeldInWait(c, Step(c, s, first.level, first.now).next, samples);
  }

  /** Without an active level IDLE is never left and nothing is reported. */
  lemma {:induction false} ReleasedInIdle(c: Config, s: Fsm, samples: seq<Sample>)
    requires s.state == Idle
    requires AllReleased(samples)
    ensures Run(c, s, samples) == Trace(s, Run(c, s, samples).results)
    ensures AllNull(Run(c, s, samples).results)
  {
    if samples != [] {
      assert AllReleased(samples[1..]) by {
        forall i | 0 <= i < |samples[1..]| ensures !samples[1..][i].level {
          assert samples[1..][i] == samples[i + 1];
        }
      }
      ReleasedInIdle(c, s, samples[1..]);
    }
  }

  /** Every poll inside a debounce window, whatever the level (contact
      bounce), reports nothing and leaves state and time stamp alone. */
  lemma {:induction false} DebounceIgnoresBounce(c: Config, s: Fsm, samples: seq<Sample>)
    requires s.state in {Debounce1, Debounce2}
    requires forall i :: 0 <= i < |samples| ==> Elapsed(samples[i].now, s.timeActive) < c.timeDebounce as uint32
    ensures Run(c, s, samples) == Trace(s, Run(c, s, samples).results)
    ensures AllNull(Run(c, s, samples).results)
  {
    if samples != [] {
      DebounceHolds(c, s, samples[0].level, samples[0].now);
      assert forall i :: 0 <= i < |samples[1..]| ==>
               Elapsed(samples[1..][i].now, s.timeActive) < c.timeDebounce as uint32 by {
        forall i | 0 <= i < |samples[1..]|
          ensures Elapsed(samples[1..][i].now, s.timeActive) < c.timeDebounce as uint32
        {
          assert samples[1..][i] == samples[i + 1];
        }
      }
      DebounceIgnoresBounce(c, s, samples[1..]);
    }
  }

  /** Held polls spaced exactly `period` milliseconds apart, starting
      `period` after `t`, on a clock that wraps at 2^32. */
  function Ticks(t: uint32, period: uint16, n: nat): (r: seq<Sample>)
    ensures |r| == n
    ensures AllHeld(r)
    decreases n
  {
    if n == 0 then [] else [Sample(true, After(t, period as nat))] + Ticks(After(t, period as nat), period, n - 1)
  }

  /** Auto repeat: with repeat enabled, a key held in REPEAT and polled at
      every repeat boundary reports a press at each one and stays in
      REPEAT, however often the clock wraps. */
  lemma {:induction false} RepeatForever(c: Config, t: uint32, n: nat)
    requires c.RepeatOn()
    ensures Run(c, Fsm(Repeat, t), Ticks(t, c.timeRepeat, n)).results == seq(n, _ => KsPress)
    ensures Run(c, Fsm(Repeat, t), Ticks(t, c.timeRepeat, n)).last.state == Repeat
    decreases n
  {
    if n > 0 {
      var u := After(t, c.timeRepeat as nat);
      ElapsedAfter(t, c.timeRepeat as nat);
      assert Step(c, Fsm(Repeat, t), true, u) == Outcome(Fsm(Repeat, u), KsPress);
      assert Ticks(t, c.timeRepeat, n)[1..] == Ticks(u, c.timeRepeat, n - 1);
      RepeatForever(c, u, n - 1);
      assert [KsPress] + seq(n - 1, _ => KsPress) == seq(n, _ => KsPress);
    }
  }
}
