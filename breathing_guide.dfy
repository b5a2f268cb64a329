/** The breathing guide component: the state it keeps (heart rate, phase,
    running flag) and the state its running intervals capture (the timing
    taken at start and the step counter). Each firing of an interval is an
    explicit call: Tick for the one-second breathing interval, UpdateHeartRate
    for the two-second heart-rate interval. */
module BreathingGuide {
  import opened HeartRate
  import opened BreathingCycle

  class Guide {
    var heartRate: int
    var phase: Phase
    var isRunning: bool
    /** Captured by the breathing interval when it is started; meaningful
        only while running. */
    var timing: Timing
    var step: int
    /** Ticks since the guide was last started. */
    ghost var ticks: nat

    /** The rate stays in [60, 100]; a stopped guide shows 70 and Prepare; a
        running guide's step and phase are those of its captured timing after
        `ticks` ticks. */
    ghost predicate Valid()
      reads this
    {
      MinRate <= heartRate <= MaxRate &&
      (!isRunning ==> heartRate == RestingRate && phase == Prepare) &&
      (isRunning ==>
         WellFormed(timing) &&
         InCycle(timing, Cycle(step, phase)) &&
         Cycle(step, phase) == Run(timing, Start, ticks))
    }

    /** The component's initial state: rate 70, phase Prepare, not running. */
    constructor ()
      ensures Valid()
      ensures heartRate == RestingRate && phase == Prepare && !isRunning
    {
      heartRate := RestingRate;
      phase := Prepare;
      isRunning := false;
      timing := Medium;
      step := 0;
      ticks := 0;
    }

    /** startGuide: nothing when already running; otherwise starts both
        intervals, the breathing one with the timing of the current rate.
        A stopped guide always shows 70, so every run captures the medium
        timing. */
    method StartGuide()
      requires Valid()
      modifies this
      ensures Valid()
      ensures old(isRunning) ==> unchanged(this)
      ensures !old(isRunning) ==>
                isRunning && timing == BreathingTiming(heartRate) && timing == Medium &&
                step == 0 && ticks == 0 &&
                heartRate == old(heartRate) && phase == old(phase)
    {
      if isRunning {
        return;
      }
      isRunning := true;
      timing := BreathingTiming(heartRate);
      step := 0;
      ticks := 0;
    }

    /** stopGuide: nothing when not running; otherwise clears both intervals,
        shows Prepare and resets the rate to exactly 70. */
    method StopGuide()
      requires Valid()
      modifies this
      ensures Valid()
      ensures !old(isRunning) ==> unchanged(this)
      ensures old(isRunning) ==> !isRunning && phase == Prepare && heartRate == RestingRate
    {
      if !isRunning {
        return;
      }
      isRunning := false;
      phase := Prepare;
      heartRate := RestingRate;
    }

    /** One firing of the one-second breathing interval. The timing is the
        one captured at start, even when the rate has since moved into
        another band. */
    method Tick()
      requires Valid() && isRunning
      modifies this
      ensures Valid() && isRunning
      ensures Cycle(step, phase) == TickCycle(timing, old(Cycle(step, phase)))
      ensures phase == PhaseAtStep(timing, old(step))
      ensures step == if old(step) + 1 == Period(timing) then 0 else old(step) + 1
      ensures ticks == old(ticks) + 1
      ensures timing == old(timing) && heartRate == old(heartRate)
    {
      TickStaysInCycle(timing, Cycle(step, phase));
      RunLastTick(timing, Start, ticks);
      var next := TickCycle(timing, Cycle(step, phase));
      step, phase := next.step, next.phase;
      ticks := ticks + 1;
    }

    /** One firing of the two-second heart-rate interval, with the drawn
        variation as a parameter. */
    method UpdateHeartRate(variation: real)
      requires Valid() && isRunning
      requires IsVariation(variation)
      modifies this`heartRate
      ensures Valid()
      ensures heartRate == NextHeartRate(old(heartRate), variation)
      ensures MinRate <= heartRate <= MaxRate
      ensures old(heartRate) - 3 <= heartRate <= old(heartRate) + 3
    {
      heartRate := NextHeartRate(heartRate, variation);
    }
  }

  /** Starting at rest and drawing the largest variation five times takes the
      rate from 70 to 85, into the fast band, while the running cycle keeps
      the medium timing it captured at start. */
  method TimingFixedWhileRunning() returns (kept: Timing, current: Timing)
    ensures kept == Medium && current == Fast
  {
    var g := new Guide();
    g.StartGuide();
    var i := 0;
    while i < 5
      invariant 0 <= i <= 5
      invariant g.Valid() && g.isRunning
      invariant g.heartRate == RestingRate + 3 * i && g.timing == Medium
    {
      g.UpdateHeartRate(2.5);
      g.Tick();
      i := i + 1;
    }
    kept, current := g.timing, BreathingTiming(g.heartRate);
  }
}
