/**
 * What a ramp does over many interrupts. `Ticks` runs the ramp interrupt
 * handler n times with no foreground call in between; the lemmas say when
 * a ramp armed by StartRamped ends and in which state, and what becomes of
 * a ramp when Start or Stop is called while it is in flight.
 */
module RampBehaviour {
  import opened Widths
  import opened RampTiming
  import opened Drv8833

  /** The state after `n` ramp interrupts and no other call. */
  function Ticks(s: State, arr: U32, n: nat): State
    decreases n
  {
    if n == 0 then s else Ticks(TickSpec(s, arr), arr, n - 1)
  }

  /**
   * A ramp in flight whose speed and target are both within 0..100 and whose
   * step points from the speed towards the target: what StartRamped leaves
   * when it arms the ramp timer.
   */
  predicate ArmedRamp(s: State) {
    s.ramping && s.running && s.armed &&
    s.speed <= 100 && s.target <= 100 && s.speed != s.target &&
    s.step == (if s.target > s.speed then 1 else -1)
  }

  /** Speed units between the current speed and the target. */
  function Distance(s: State): nat {
    if s.target < s.speed then s.speed - s.target else s.target - s.speed
  }

  /**
   * StartRamped from a state whose speed is within 0..100 and no ramp in
   * flight arms a ramp of one tick per step, unless the tick interval
   * exceeds a second.
   */
  lemma StartRampedArms(s: State, dir: Direction, target: U8, duration: U32, pclk1: U32, ppre1: Ppre)
    requires s.speed <= 100
    requires !StartRampedIgnored(s, target) && !StartRampedFaults(s, target, duration)
    ensures var r := StartRampedSpec(s, dir, target, duration, pclk1, ppre1);
            ArmedRamp(r) && r.target == Clamp(target) && Distance(r) == StepCount(s, target) &&
            r.speed == s.speed && r.direction == dir
  {
  }

  /** A second StartRamped while the first ramp is in flight changes nothing. */
  lemma StartRampedTwice(s: State, dir1: Direction, t1: U8, d1: U32, dir2: Direction, t2: U8, d2: U32,
                         pclk1: U32, ppre1: Ppre)
    requires !StartRampedIgnored(s, t1)
    ensures var r := StartRampedSpec(s, dir1, t1, d1, pclk1, ppre1);
            StartRampedSpec(r, dir2, t2, d2, pclk1, ppre1) == r
  {
  }

  /**
   * Before the target is reached, a ramp to a nonzero target is still in
   * flight after each of the first k < Distance ticks, k units further on.
   */
  lemma {:induction false} RampProgress(s: State, arr: U32, k: nat)
    requires ArmedRamp(s) && s.target != 0
    requires k < Distance(s)
    decreases k
    ensures var m := Ticks(s, arr, k);
            ArmedRamp(m) && m.target == s.target && m.step == s.step && m.direction == s.direction &&
            (s.step == 1 ==> m.speed == s.speed + k) &&
            (s.step == -1 ==> m.speed == s.speed - k)
  {
    if k > 0 {
      var s1 := TickSpec(s, arr);
      RampProgress(s1, arr, k - 1);
    }
  }

  /**
   * A ramp to a nonzero target ends after exactly Distance ticks: the speed
   * is the target, the ramp is over and its timer disarmed, the motor still
   * runs and the active channel carries the target's duty.
   */
  lemma {:induction false} RampCompletes(s: State, arr: U32)
    requires ArmedRamp(s) && s.target != 0
    decreases Distance(s)
    ensures var e := Ticks(s, arr, Distance(s));
            e.speed == s.target && !e.ramping && !e.armed && e.running &&
            e.direction == s.direction &&
            ActiveCompare(e) == PwmPulse(arr, s.target) && InactiveCompare(e) == 0
  {
    var s1 := TickSpec(s, arr);
    if Distance(s) > 1 {
      RampCompletes(s1, arr);
    }
  }

  /**
   * With the motor not running, each tick moves the speed field one unit
   * without touching the outputs, until it reaches the target.
   */
  lemma {:induction false} Coast(s: State, arr: U32)
    requires !s.running && s.ramping && s.speed != s.target
    requires s.step == (if s.target > s.speed then 1 else -1)
    decreases Distance(s)
    ensures Ticks(s, arr, Distance(s)) == s.(speed := s.target, ramping := false, armed := false)
  {
    var s1 := TickSpec(s, arr);
    if Distance(s) > 1 {
      Coast(s1, arr);
      assert s1.(speed := s.target, ramping := false, armed := false)
          == s.(speed := s.target, ramping := false, armed := false);
    }
  }

  /** While coasting, the ramp stays in flight until the target is reached. */
  lemma {:induction false} CoastProgress(s: State, arr: U32, k: nat)
    requires !s.running && s.ramping && s.speed != s.target
    requires s.step == (if s.target > s.speed then 1 else -1)
    requires k < Distance(s)
    decreases k
    ensures Ticks(s, arr, k).ramping
  {
    if k > 0 {
      CoastProgress(TickSpec(s, arr), arr, k - 1);
    }
  }

  /**
   * A ramp down to 0 clears the running flag on its first tick, so SetSpeed
   * ignores every later tick: after `speed` ticks the speed is 0 and nothing
   * runs or ramps, but the active channel still holds the duty the first
   * tick wrote, that of speed - 1. Until then the ramp is in flight.
   */
  lemma RampToZero(s: State, arr: U32)
    requires ArmedRamp(s) && s.target == 0
    ensures !TickSpec(s, arr).running
    ensures var e := Ticks(s, arr, s.speed);
            e.speed == 0 && !e.running && !e.ramping && !e.armed &&
            ActiveCompare(e) == PwmPulse(arr, s.speed - 1) && InactiveCompare(e) == 0
    ensures forall k: nat :: k < s.speed ==> Ticks(s, arr, k).ramping
  {
    var s1 := TickSpec(s, arr);
    if s.speed > 1 {
      Coast(s1, arr);
    }
    forall k: nat | k < s.speed
      ensures Ticks(s, arr, k).ramping
    {
      if k > 0 {
        CoastProgress(s1, arr, k - 1);
      }
    }
  }

  /**
   * The whole ramp from the StartRamped call: from speed s to a nonzero
   * target t the ramp timer fires exactly |t - s| times, and the motor ends
   * at the target's duty.
   */
  lemma RampFromStartRamped(s: State, arr: U32, dir: Direction, target: U8, duration: U32,
                            pclk1: U32, ppre1: Ppre)
    requires s.speed <= 100 && Clamp(target) != 0
    requires !StartRampedIgnored(s, target) && !StartRampedFaults(s, target, duration)
    ensures var r := StartRampedSpec(s, dir, target, duration, pclk1, ppre1);
            var e := Ticks(r, arr, StepCount(s, target));
            e.speed == Clamp(target) && !e.ramping && !e.armed && e.running && e.direction == dir &&
            ActiveCompare(e) == PwmPulse(arr, Clamp(target)) && InactiveCompare(e) == 0
    ensures forall k: nat :: k < StepCount(s, target) ==>
              Ticks(StartRampedSpec(s, dir, target, duration, pclk1, ppre1), arr, k).ramping
  {
    var r := StartRampedSpec(s, dir, target, duration, pclk1, ppre1);
    StartRampedArms(s, dir, target, duration, pclk1, ppre1);
    RampCompletes(r, arr);
    forall k: nat | k < StepCount(s, target)
      ensures Ticks(r, arr, k).ramping
    {
      RampProgress(r, arr, k);
    }
  }

  /**
   * A ramp from rest to 50 percent over 100 ms on a timer clocked at
   * 84 MHz (PCLK1 42 MHz, APB1 divided by 4): a tick every 2 ms, prescaler
   * 167, and 50 ticks to the target.
   */
  lemma RampFiftyInHundredMs(s: State, arr: U32)
    requires s.speed == 0 && !s.ramping
    ensures var r := StartRampedSpec(s, Forward, 50, 100, 42_000_000, 0x5);
            r.armed && r.rampArr == 999 && r.rampPsc == 167 && r.counter == 0 &&
            Ticks(r, arr, 50).speed == 50 && !Ticks(r, arr, 50).ramping &&
            Ticks(r, arr, 49).ramping
  {
    assert RampInterval(s, 50, 100) == 2;
    assert RampDivisor(2) == 500_000;
    RampFromStartRamped(s, arr, Forward, 50, 100, 42_000_000, 0x5);
  }

  /**
   * The same ramp on an 84 MHz part with APB1 divided by 2 (PCLK1 42 MHz,
   * timer clock 84 MHz): the driver's clock rule takes 42 MHz and writes
   * prescaler 83, where the 84 MHz timer needs 167 for a 2 ms tick, so
   * every tick comes after 1 ms.
   */
  lemma RampAtApb1HalfTicksTwiceTooFast(s: State)
    requires s.speed == 0 && !s.ramping
    ensures var r := StartRampedSpec(s, Forward, 50, 100, 42_000_000, 0x4);
            r.armed && r.rampPsc == 83 &&
            RampPrescaler(TimerClock(42_000_000, 0x4), RampInterval(s, 50, 100)) == Some(167)
  {
    assert RampInterval(s, 50, 100) == 2;
    assert RampDivisor(2) == 500_000;
  }

  // -----------------------------------------------------------------------
  // Foreground calls during a ramp

  /** A ramp upwards that Start has pushed above its target. */
  predicate Overshot(s: State) {
    s.ramping && s.running && s.armed && s.step == 1 && 0 < s.target < s.speed <= 100
  }

  /** Once above its target, an upward ramp sticks at 100 and never ends. */
  lemma {:induction false} OvershootPersists(s: State, arr: U32, n: nat)
    requires Overshot(s)
    decreases n
    ensures Overshot(Ticks(s, arr, n)) && Ticks(s, arr, n).target == s.target
  {
    if n > 0 {
      OvershootPersists(TickSpec(s, arr), arr, n - 1);
    }
  }

  /**
   * Start with a speed above the target of an upward ramp in flight: the
   * ramp timer then fires forever and the ramp never ends.
   */
  lemma StartDuringUpRampNeverEnds(s: State, arr: U32, dir: Direction, v: U8, n: nat)
    requires ArmedRamp(s) && s.step == 1 && Clamp(v) > s.target
    ensures var e := Ticks(StartSpec(s, arr, dir, v), arr, n);
            e.ramping && e.armed && e.speed != s.target
  {
    OvershootPersists(StartSpec(s, arr, dir, v), arr, n);
  }

  /**
   * Stop during an upward ramp leaves the ramp in flight: its timer fires
   * `target` more times, moving only the speed field, and the motor ends
   * stopped with both outputs at 0 while the speed reads the target.
   */
  lemma StopDuringUpRamp(s: State, arr: U32)
    requires ArmedRamp(s) && s.step == 1
    ensures var e := Ticks(StopSpec(s), arr, s.target);
            e.speed == s.target && !e.running && !e.ramping && !e.armed &&
            e.cmp1 == 0 && e.cmp2 == 0
  {
    Coast(StopSpec(s), arr);
  }

  /**
   * Stop during a downward ramp: the first tick wraps the speed from 0 to
   * 255, and the ramp then counts down to its target, 256 - target ticks in
   * all, with the motor stopped throughout.
   */
  lemma StopDuringDownRamp(s: State, arr: U32)
    requires ArmedRamp(s) && s.step == -1
    ensures var e := Ticks(StopSpec(s), arr, 256 - s.target);
            e.speed == s.target && !e.running && !e.ramping && !e.armed &&
            e.cmp1 == 0 && e.cmp2 == 0
    ensures TickSpec(StopSpec(s), arr).speed == 255
  {
    var s1 := TickSpec(StopSpec(s), arr);
    Coast(s1, arr);
  }

  /**
   * StartRamped in the other direction does not rewrite the outputs, so
   * until the first tick the channel that is now inactive still carries
   * the duty of the old direction; the first tick zeroes it.
   */
  lemma ReversingRampKeepsOldDutyUntilFirstTick(s: State, arr: U32, target: U8, duration: U32,
                                                pclk1: U32, ppre1: Ppre)
    requires arr * 100 < WORD_MOD && 100 <= arr
    requires s.direction == Forward && s.running && 0 < s.speed <= 100
    requires s.cmp1 == PwmPulse(arr, s.speed) && s.cmp2 == 0
    requires !StartRampedIgnored(s, target) && !StartRampedFaults(s, target, duration)
    ensures var r := StartRampedSpec(s, Reverse, target, duration, pclk1, ppre1);
            0 < InactiveCompare(r) && InactiveCompare(TickSpec(r, arr)) == 0
  {
    PwmPulseWithinPeriod(arr, s.speed);
    MulMonotonic(arr, 1, s.speed);
  }
}
