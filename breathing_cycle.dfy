/** The one-second tick of the breathing guide. A running cycle holds the
    timing it was started with and a step counter; each tick looks the step
    up against the segment boundaries, may set a new phase, and advances the
    step, wrapping to 0 after the Prepare tick. */
module BreathingCycle {
  import opened HeartRate

  /** What the interval closure carries from one tick to the next: its step
      counter and the phase it last displayed. */
  datatype Cycle = Cycle(step: int, phase: Phase)

  /** The state right after the cycle is started: step 0, phase still Prepare. */
  const Start := Cycle(0, Prepare)

  /** Every segment lasts at least one tick; all timings the guide uses do. */
  predicate WellFormed(t: Timing) {
    t.inhale >= 1 && t.hold >= 1 && t.exhale >= 1
  }

  /** Ticks in one full cycle: inhale + hold + exhale, plus the Prepare tick. */
  function Period(t: Timing): nat {
    t.inhale + t.hold + t.exhale + 1
  }

  /** One tick, cases tried in the order of the source's switch. The last case
      sets the step to -1, which the increment after the switch brings to 0. */
  function TickCycle(t: Timing, c: Cycle): (next: Cycle)
    ensures next.step == c.step + 1 || next.step == 0
    ensures next.phase != c.phase ==>
              c.step == 0 || c.step == t.inhale || c.step == t.inhale + t.hold ||
              c.step == t.inhale + t.hold + t.exhale
  {
    if c.step == 0 then Cycle(c.step + 1, Inhale)
    else if c.step == t.inhale then Cycle(c.step + 1, Hold)
    else if c.step == t.inhale + t.hold then Cycle(c.step + 1, Exhale)
    else if c.step == t.inhale + t.hold + t.exhale then Cycle(-1 + 1, Prepare)
    else Cycle(c.step + 1, c.phase)
  }

  /** The phase shown after the tick taken at step s of a cycle, in closed form. */
  function PhaseAtStep(t: Timing, s: int): Phase {
    if s < t.inhale then Inhale
    else if s < t.inhale + t.hold then Hold
    else if s < t.inhale + t.hold + t.exhale then Exhale
    else Prepare
  }

  /** The states a running cycle can be in between ticks: the step lies in
      [0, inhale + hold + exhale], at step 0 the phase is Prepare, and at any
      other step it is the phase the previous step displayed. */
  predicate InCycle(t: Timing, c: Cycle) {
    0 <= c.step < Period(t) &&
    (c.step == 0 ==> c.phase == Prepare) &&
    (c.step > 0 ==> c.phase == PhaseAtStep(t, c.step - 1))
  }

  /** A tick keeps the cycle in its range, moves the step on by one (or wraps
      it to 0 after the last one) and shows the phase its step belongs to. */
  lemma TickStaysInCycle(t: Timing, c: Cycle)
    requires WellFormed(t) && InCycle(t, c)
    ensures InCycle(t, TickCycle(t, c))
    ensures TickCycle(t, c).step == if c.step + 1 == Period(t) then 0 else c.step + 1
    ensures TickCycle(t, c).phase == PhaseAtStep(t, c.step)
  {
    if c.step == 0 {
    } else if c.step == t.inhale {
    } else if c.step == t.inhale + t.hold {
    } else if c.step == t.inhale + t.hold + t.exhale {
    } else {
      assert PhaseAtStep(t, c.step - 1) == PhaseAtStep(t, c.step);
    }
  }

  /** The cycle after n ticks. */
  function Run(t: Timing, c: Cycle, n: nat): Cycle
    decreases n
  {
    if n == 0 then c else Run(t, TickCycle(t, c), n - 1)
  }

  /** Running a + b ticks is running a ticks and then b more. */
  lemma {:induction false} RunAdds(t: Timing, c: Cycle, a: nat, b: nat)
    ensures Run(t, c, a + b) == Run(t, Run(t, c, a), b)
    decreases a
  {
    if a > 0 {
      RunAdds(t, TickCycle(t, c), a - 1, b);
    }
  }

  /** The last tick of a run of n + 1 ticks is one tick after the run of n. */
  lemma RunLastTick(t: Timing, c: Cycle, n: nat)
    ensures Run(t, c, n + 1) == TickCycle(t, Run(t, c, n))
  {
    RunAdds(t, c, n, 1);
  }

  /** From any cycle state, every run of ticks stays in the cycle. */
  lemma {:induction false} RunStaysInCycle(t: Timing, c: Cycle, n: nat)
    requires WellFormed(t) && InCycle(t, c)
    ensures InCycle(t, Run(t, c, n))
    decreases n
  {
    if n > 0 {
      TickStaysInCycle(t, c);
      RunStaysInCycle(t, TickCycle(t, c), n - 1);
    }
  }

  /** During the first cycle, tick number n (counting from 1) moves the step
      to n and shows the phase of step n - 1; the tick that completes the
      cycle shows Prepare and sets the step back to 0. */
  lemma {:induction false} FirstCycle(t: Timing, n: nat)
    requires WellFormed(t) && 0 < n <= Period(t)
    ensures Run(t, Start, n).phase == PhaseAtStep(t, n - 1)
    ensures Run(t, Start, n).step == if n == Period(t) then 0 else n
    decreases n
  {
    if n == 1 {
      assert Run(t, Start, 1) == Run(t, TickCycle(t, Start), 0);
    } else {
      FirstCycle(t, n - 1);
      RunStaysInCycle(t, Start, n - 1);
      TickStaysInCycle(t, Run(t, Start, n - 1));
      RunLastTick(t, Start, n - 1);
    }
  }

  /** The phase sequence repeats with period inhale + hold + exhale + 1 ticks:
      a completed cycle brings the state back to the start. */
  lemma CycleRepeats(t: Timing, n: nat)
    requires WellFormed(t)
    ensures Run(t, Start, Period(t)) == Start
    ensures Run(t, Start, n + Period(t)) == Run(t, Start, n)
  {
    FirstCycle(t, Period(t));
    RunAdds(t, Start, Period(t), n);
    assert n + Period(t) == Period(t) + n;
  }

  /** For the middle band's timing (4, 1, 4): Inhale on ticks 0-3, Hold on 4,
      Exhale on 5-8, Prepare on 9, counting ticks from 0. */
  lemma MediumSchedule(k: nat)
    requires k < 10
    ensures Run(Medium, Start, k + 1).phase ==
            [Inhale, Inhale, Inhale, Inhale, Hold, Exhale, Exhale, Exhale, Exhale, Prepare][k]
  {
    FirstCycle(Medium, k + 1);
  }
}
