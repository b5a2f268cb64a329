/** Heart-rate bands of the breathing guide: the clamped random walk of the
    simulated rate, the breathing timing chosen from the rate, the background
    colour chosen from the rate and the badge style chosen from the phase.
    Each is a pure function of the component's current state. */
module HeartRate {

  /** The four phases of the breathing cycle. */
  datatype Phase = Prepare | Inhale | Hold | Exhale

  /** Seconds spent inhaling, holding and exhaling in one cycle. */
  datatype Timing = Timing(inhale: nat, hold: nat, exhale: nat)

  const MinRate := 60
  const MaxRate := 100
  /** The rate the guide shows before it starts and after it stops. */
  const RestingRate := 70

  function Min(a: real, b: real): real { if a <= b then a else b }
  function Max(a: real, b: real): real { if a >= b then a else b }

  /** JavaScript's Math.round: the nearest integer, halves rounded up. */
  function Round(x: real): (n: int)
    ensures n as real - 0.5 <= x < n as real + 0.5
  {
    (x + 0.5).Floor
  }

  /** The variation drawn from a Math.random() value. */
  function Draw(random: real): real {
    random * 6.0 - 3.0
  }

  /** A variation the source can draw: exactly the values Math.random() * 6 - 3
      takes for a random value in [0, 1), which is the interval [-3, 3). */
  predicate IsVariation(variation: real): (ok: bool)
    ensures ok <==> exists random :: 0.0 <= random < 1.0 && Draw(random) == variation
  {
    assert Draw((variation + 3.0) / 6.0) == variation;
    -3.0 <= variation < 3.0
  }

  /** One step of the random walk: add the variation, clamp to [60, 100], round. */
  function NextHeartRate(prev: int, variation: real): (r: int)
    ensures MinRate <= r <= MaxRate
    ensures MinRate <= prev <= MaxRate && IsVariation(variation) ==> prev - 3 <= r <= prev + 3
  {
    Round(Max(MinRate as real, Min(prev as real + variation, MaxRate as real)))
  }

  /** Every rate in [60, 100] within 3 of the previous one can be drawn, so the
      bounds of NextHeartRate are exactly the reachable set. */
  lemma NextHeartRateReaches(prev: int, target: int)
    requires MinRate <= prev <= MaxRate
    requires MinRate <= target <= MaxRate && prev - 3 <= target <= prev + 3
    ensures exists variation :: IsVariation(variation) && NextHeartRate(prev, variation) == target
  {
    var variation := if target - prev == 3 then 2.5 else (target - prev) as real;
    assert prev as real + variation <= target as real;
    assert Round(prev as real + variation) == target;
    assert NextHeartRate(prev, variation) == target;
  }

  /** The three cadences of getBreathingTiming. */
  const Slow := Timing(5, 1, 5)
  const Medium := Timing(4, 1, 4)
  const Fast := Timing(3, 1, 3)

  /** Timing bands: below 70, [70, 85) and 85 or above. */
  function BreathingTiming(heartRate: int): (t: Timing)
    ensures t.hold == 1 && t.inhale == t.exhale && 3 <= t.inhale <= 5
    ensures t.inhale >= 1 && t.hold >= 1 && t.exhale >= 1
  {
    if heartRate < 70 then Slow
    else if heartRate < 85 then Medium
    else Fast
  }

  /** A faster heart never gets a longer breath. */
  lemma BreathingTimingMonotone(slower: int, faster: int)
    requires slower <= faster
    ensures BreathingTiming(faster).inhale <= BreathingTiming(slower).inhale
    ensures BreathingTiming(faster).exhale <= BreathingTiming(slower).exhale
  {
  }

  /** The band each cadence belongs to, in both directions. */
  lemma BreathingTimingBands(heartRate: int)
    ensures BreathingTiming(heartRate) == Slow <==> heartRate < 70
    ensures BreathingTiming(heartRate) == Medium <==> 70 <= heartRate < 85
    ensures BreathingTiming(heartRate) == Fast <==> 85 <= heartRate
  {
  }

  /** The background colours of getBackgroundColor, coolest first. */
  datatype Background = Blue | Green | Yellow | Red

  /** The style class the source returns for each colour: always a light
      (100) background shade. */
  function BackgroundClass(b: Background): (c: string)
    ensures |c| > 7 && c[..3] == "bg-" && c[|c| - 4..] == "-100"
  {
    match b
    case Blue => "bg-blue-100"
    case Green => "bg-green-100"
    case Yellow => "bg-yellow-100"
    case Red => "bg-red-100"
  }

  /** Colour bands: below 65, [65, 75), [75, 85) and 85 or above; defined for every integer. */
  function BackgroundColor(heartRate: int): (b: Background)
    ensures b == Blue <==> heartRate < 65
    ensures b == Green <==> 65 <= heartRate < 75
    ensures b == Yellow <==> 75 <= heartRate < 85
    ensures b == Red <==> 85 <= heartRate
  {
    if heartRate < 65 then Blue
    else if heartRate < 75 then Green
    else if heartRate < 85 then Yellow
    else Red
  }

  function Warmth(b: Background): (w: nat)
    ensures w <= 3
  {
    match b
    case Blue => 0
    case Green => 1
    case Yellow => 2
    case Red => 3
  }

  /** A faster heart never gets a cooler background. */
  lemma BackgroundColorMonotone(slower: int, faster: int)
    requires slower <= faster
    ensures Warmth(BackgroundColor(slower)) <= Warmth(BackgroundColor(faster))
  {
  }

  /** The two band sets use different thresholds; they agree only at 85. */
  lemma BandsAgreeAtTheTop(heartRate: int)
    ensures BackgroundColor(heartRate) == Red <==> BreathingTiming(heartRate) == Fast
    ensures BackgroundColor(heartRate) == Blue ==> BreathingTiming(heartRate) == Slow
    ensures BackgroundColor(69) == Green && BreathingTiming(69) == Slow
    ensures BackgroundColor(74) == Green && BreathingTiming(74) == Medium
  {
  }

  /** The badge style of getPhaseStyle; every phase without a style of its own
      (only Prepare here) gets the gray default. */
  function PhaseStyle(p: Phase): (style: string)
    ensures style == "bg-gray-200 text-gray-800" <==> p == Prepare
  {
    match p
    case Inhale => "bg-green-200 text-green-800"
    case Hold => "bg-yellow-200 text-yellow-800"
    case Exhale => "bg-blue-200 text-blue-800"
    case _ => "bg-gray-200 text-gray-800"
  }

  /** The four phases are told apart by their badge. */
  lemma PhaseStyleInjective(p: Phase, q: Phase)
    requires p != q
    ensures PhaseStyle(p) != PhaseStyle(q)
  {
    assert PhaseStyle(p)[5] != PhaseStyle(q)[5];
  }
}
