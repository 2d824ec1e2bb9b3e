/**
 * The DRV8833 dual-H-bridge driver object: direction, speed, the running and
 * ramping flags, the ramp's target and step, and the timer registers the
 * driver writes (the two PWM compare registers, and the ramp timer's
 * auto-reload, prescaler, counter and interrupt enable).
 *
 * `State` is the driver's whole observable state as a value, and one pure
 * function per operation gives the state the operation leaves behind. The
 * class `Driver` holds the same state in fields that the API methods update
 * in place; each method is proved to leave exactly the state its function
 * describes.
 */
module Drv8833 {
  import opened Widths
  import opened RampTiming

  datatype Direction = Forward | Reverse

  datatype State = State(
    direction: Direction,
    speed: U8,        // current_speed
    running: bool,    // is_running
    ramping: bool,    // is_ramping
    target: U8,       // target_speed
    step: I8,         // speed_step
    cmp1: U32,        // compare register of the IN1 channel
    cmp2: U32,        // compare register of the IN2 channel
    pwmOn: bool,      // both PWM channels started
    armed: bool,      // ramp timer update interrupt running
    rampArr: U32,     // ramp timer auto-reload
    rampPsc: U32,     // ramp timer prescaler
    counter: U32)     // ramp timer counter

  /** Compare register of the channel `direction` selects. */
  function ActiveCompare(s: State): U32 {
    if s.direction == Forward then s.cmp1 else s.cmp2
  }

  /** Compare register of the other channel. */
  function InactiveCompare(s: State): U32 {
    if s.direction == Forward then s.cmp2 else s.cmp1
  }

  /** Nothing the ramp owns differs between `s` and `r`. */
  predicate RampUntouched(s: State, r: State) {
    r.ramping == s.ramping && r.target == s.target && r.step == s.step &&
    r.armed == s.armed && r.rampArr == s.rampArr && r.rampPsc == s.rampPsc &&
    r.counter == s.counter
  }

  /** A speed request limited to 100 percent. */
  function Clamp(v: U8): (r: U8)
    ensures r <= 100
    ensures v <= 100 ==> r == v
    ensures 100 < v ==> r == 100
  {
    if v > 100 then 100 else v
  }

  /** Compare value for `speed` percent of a PWM period `period`, in `uint32_t`. */
  function PwmPulse(period: U32, speed: U8): (r: U32)
    ensures r * 100 <= MulU32(period, speed) < r * 100 + 100
  {
    MulU32(period, speed) / 100
  }

  /**
   * As long as `period * 100` fits in 32 bits, the pulse is the exact share
   * of the period, and at most the period itself for a clamped speed.
   */
  lemma PwmPulseWithinPeriod(period: U32, speed: U8)
    requires period * 100 < WORD_MOD
    requires speed <= 100
    ensures PwmPulse(period, speed) * 100 <= period * speed < PwmPulse(period, speed) * 100 + 100
    ensures PwmPulse(period, speed) <= period
    ensures speed == 100 ==> PwmPulse(period, speed) == period
    ensures speed == 0 ==> PwmPulse(period, speed) == 0
  {
    MulMonotonic(period, speed, 100);
  }

  // -----------------------------------------------------------------------
  // The operations on values

  /** `DRV8833_SetSpeed`: store the clamped speed and drive it on the active channel. */
  function SetSpeedSpec(s: State, arr: U32, v: U8): (r: State)
    ensures !s.running ==> r == s
    ensures s.running ==> r.speed == Clamp(v)
    ensures s.running ==> ActiveCompare(r) == PwmPulse(arr, Clamp(v)) && InactiveCompare(r) == 0
    ensures r.direction == s.direction && r.running == s.running && r.pwmOn == s.pwmOn
    ensures RampUntouched(s, r)
  {
    if !s.running then s
    else
      var sp := Clamp(v);
      var pulse := PwmPulse(arr, sp);
      if s.direction == Forward then s.(speed := sp, cmp1 := pulse, cmp2 := 0)
      else s.(speed := sp, cmp2 := pulse, cmp1 := 0)
  }

  /** `DRV8833_Start`: take the direction, mark the motor running, apply the speed. */
  function StartSpec(s: State, arr: U32, dir: Direction, v: U8): (r: State)
    ensures r.direction == dir && r.running && r.speed == Clamp(v)
    ensures ActiveCompare(r) == PwmPulse(arr, Clamp(v)) && InactiveCompare(r) == 0
    ensures r.pwmOn == s.pwmOn && RampUntouched(s, r)
  {
    SetSpeedSpec(s.(direction := dir, running := true), arr, v)
  }

  /** `DRV8833_Stop`: both channels to 0, not running, speed 0. */
  function StopSpec(s: State): (r: State)
    ensures r.cmp1 == 0 && r.cmp2 == 0
    ensures !r.running && r.speed == 0
    ensures r.direction == s.direction && r.pwmOn == s.pwmOn && RampUntouched(s, r)
  {
    s.(cmp1 := 0, cmp2 := 0, running := false, speed := 0)
  }

  /** `DRV8833_Brake`: both channels to the full period, not running, speed 0. */
  function BrakeSpec(s: State, arr: U32): (r: State)
    ensures r.cmp1 == arr && r.cmp2 == arr
    ensures !r.running && r.speed == 0
    ensures r.direction == s.direction && r.pwmOn == s.pwmOn && RampUntouched(s, r)
  {
    s.(cmp1 := arr, cmp2 := arr, running := false, speed := 0)
  }

  /** `DRV8833_Destroy` without the `free`: stop, disarm the ramp timer, stop both PWM channels. */
  function DestroySpec(s: State): (r: State)
    ensures r.cmp1 == 0 && r.cmp2 == 0 && !r.running && r.speed == 0
    ensures !r.armed && !r.pwmOn
    ensures r.ramping == s.ramping
  {
    StopSpec(s).(armed := false, pwmOn := false)
  }

  /** The early returns of `DRV8833_StartRamped`: a ramp in flight, or nothing to do. */
  predicate StartRampedIgnored(s: State, target: U8) {
    s.ramping || Clamp(target) == s.speed
  }

  /** Number of one-unit steps between the current speed and the clamped target. */
  function StepCount(s: State, target: U8): (n: nat)
    ensures !StartRampedIgnored(s, target) ==> 1 <= n
  {
    if Clamp(target) < s.speed then s.speed - Clamp(target) else Clamp(target) - s.speed
  }

  /** Interval between ramp ticks for a ramp that is not ignored. */
  function RampInterval(s: State, target: U8, duration: U32): (r: U32)
    requires !StartRampedIgnored(s, target)
    ensures 1 <= r
  {
    IntervalMs(duration, StepCount(s, target))
  }

  /** Whether `DRV8833_StartRamped` reaches its prescaler division with a zero divisor. */
  predicate StartRampedFaults(s: State, target: U8, duration: U32) {
    !StartRampedIgnored(s, target) && 1000 < RampInterval(s, target, duration)
  }

  /**
   * `DRV8833_StartRamped`. The fields are set first; then the ramp timer is
   * disarmed and, unless the prescaler division has a zero divisor, given
   * its new auto-reload, prescaler and counter and armed again.
   */
  function StartRampedSpec(s: State, dir: Direction, target: U8, duration: U32,
                           pclk1: U32, ppre1: Ppre): (r: State)
    ensures StartRampedIgnored(s, target) ==> r == s
    ensures !StartRampedIgnored(s, target) ==>
              r.direction == dir && r.running && r.ramping && r.target == Clamp(target) &&
              r.step == (if Clamp(target) > s.speed then 1 else -1)
    ensures r.speed == s.speed && r.cmp1 == s.cmp1 && r.cmp2 == s.cmp2 && r.pwmOn == s.pwmOn
    ensures !StartRampedIgnored(s, target) ==> (r.armed <==> !StartRampedFaults(s, target, duration))
    ensures r.armed && !StartRampedIgnored(s, target) ==>
              r.rampArr == RAMP_ARR && r.counter == 0 &&
              Some(r.rampPsc) == RampPrescaler(TimerClockAsWritten(pclk1, ppre1), RampInterval(s, target, duration))
  {
    if StartRampedIgnored(s, target) then s
    else
      var t := Clamp(target);
      var begun := s.(direction := dir, running := true, target := t, ramping := true,
                    step := if t > s.speed then 1 else -1, armed := false);
      match RampPrescaler(TimerClockAsWritten(pclk1, ppre1), RampInterval(s, target, duration))
      case None => begun
      case Some(psc) => begun.(rampArr := RAMP_ARR, rampPsc := psc, counter := 0, armed := true)
  }

  /**
   * `DRV8833_RampInterruptHandler`: one step of `step` (wrapping in `uint8_t`),
   * re-applied through SetSpeed; reaching the target ends the ramp and
   * disarms its timer, and a target of 0 also clears the running flag.
   */
  function TickSpec(s: State, arr: U32): (r: State)
    ensures !s.ramping ==> r == s
    ensures s.ramping && s.running ==>
              r.speed == Clamp(AddWrapU8(s.speed, s.step)) &&
              ActiveCompare(r) == PwmPulse(arr, r.speed) && InactiveCompare(r) == 0
    ensures s.ramping && !s.running ==>
              r.speed == AddWrapU8(s.speed, s.step) && r.cmp1 == s.cmp1 && r.cmp2 == s.cmp2
    ensures s.ramping ==> (r.ramping <==> r.speed != s.target) && (r.armed <==> s.armed && r.speed != s.target)
    ensures s.ramping ==> (r.running <==> s.running && s.target != 0)
    ensures r.direction == s.direction && r.target == s.target && r.step == s.step && r.pwmOn == s.pwmOn
    ensures r.rampArr == s.rampArr && r.rampPsc == s.rampPsc && r.counter == s.counter
  {
    if !s.ramping then s
    else
      var stepped := s.(speed := AddWrapU8(s.speed, s.step));
      var applied := SetSpeedSpec(stepped, arr, stepped.speed);
      var ended := if applied.speed == applied.target then applied.(ramping := false, armed := false)
                   else applied;
      if ended.target == 0 then ended.(running := false) else ended
  }

  // -----------------------------------------------------------------------
  // The driver object

  class Driver {
    /** PWM timer auto-reload, fixed by whoever configured the PWM timer. */
    const arr: U32

    var direction: Direction
    var speed: U8
    var running: bool
    var ramping: bool
    var target: U8
    var step: I8

    var cmp1: U32
    var cmp2: U32
    var pwmOn: bool

    var armed: bool
    var rampArr: U32
    var rampPsc: U32
    var counter: U32

    /** The driver's fields and registers as a State value. */
    function Snapshot(): State
      reads this
    {
      State(direction, speed, running, ramping, target, step, cmp1, cmp2, pwmOn,
            armed, rampArr, rampPsc, counter)
    }

    /**
     * The field and register assignments of `DRV8833_Init`. Direction,
     * target, step and the ramp timer are not assigned and hold whatever
     * they held before.
     */
    constructor (period: U32)
      ensures arr == period
      ensures !running && !ramping && speed == 0
      ensures cmp1 == 0 && cmp2 == 0 && pwmOn
    {
      arr := period;
      ramping := false;
      running := false;
      speed := 0;
      pwmOn := true;
      cmp1 := 0;
      cmp2 := 0;
    }
  }

  /** `DRV8833_Init`: null when the allocation fails, otherwise a stopped driver. */
  method Init(period: U32, mallocOk: bool) returns (dev: Driver?)
    ensures dev != null <==> mallocOk
    ensures dev != null ==> fresh(dev) && dev.arr == period
    ensures dev != null ==> !dev.running && !dev.ramping && dev.speed == 0
    ensures dev != null ==> dev.cmp1 == 0 && dev.cmp2 == 0 && dev.pwmOn
  {
    if !mallocOk {
      return null;
    }
    dev := new Driver(period);
  }

  /** `DRV8833_SetSpeed`. */
  method SetSpeed(dev: Driver?, v: U8)
    modifies dev
    ensures dev != null ==> dev.Snapshot() == SetSpeedSpec(old(dev.Snapshot()), dev.arr, v)
  {
    if dev == null || !dev.running {
      return;
    }
    var sp := Clamp(v);
    dev.speed := sp;
    var pulse := PwmPulse(dev.arr, sp);
    if dev.direction == Forward {
      dev.cmp1 := pulse;
      dev.cmp2 := 0;
    } else {
      dev.cmp2 := pulse;
      dev.cmp1 := 0;
    }
  }

  /** `DRV8833_Start`. */
  method Start(dev: Driver?, dir: Direction, v: U8)
    modifies dev
    ensures dev != null ==> dev.Snapshot() == StartSpec(old(dev.Snapshot()), dev.arr, dir, v)
  {
    if dev == null {
      return;
    }
    dev.direction := dir;
    dev.running := true;
    SetSpeed(dev, v);
  }

  /** `DRV8833_Stop`. */
  method Stop(dev: Driver?)
    modifies dev
    ensures dev != null ==> dev.Snapshot() == StopSpec(old(dev.Snapshot()))
  {
    if dev == null {
      return;
    }
    dev.cmp1 := 0;
    dev.cmp2 := 0;
    dev.running := false;
    dev.speed := 0;
  }

  /** `DRV8833_Brake`. */
  method Brake(dev: Driver?)
    modifies dev
    ensures dev != null ==> dev.Snapshot() == BrakeSpec(old(dev.Snapshot()), dev.arr)
  {
    if dev == null {
      return;
    }
    var period := dev.arr;
    dev.cmp1 := period;
    dev.cmp2 := period;
    dev.running := false;
    dev.speed := 0;
  }

  /** `DRV8833_Destroy`, up to the release of the memory. */
  method Destroy(dev: Driver?)
    modifies dev
    ensures dev != null ==> dev.Snapshot() == DestroySpec(old(dev.Snapshot()))
  {
    if dev != null {
      Stop(dev);
      dev.armed := false;
      dev.pwmOn := false;
    }
  }

  /**
   * `DRV8833_StartRamped`, with the PCLK1 frequency and the PPRE1 field
   * passed in. `divByZero` reports that the call reached the prescaler
   * division with a zero divisor (a tick interval above 1000 ms); the state
   * is then the one left when that division is reached.
   */
  method StartRamped(dev: Driver?, dir: Direction, target: U8, duration: U32,
                     pclk1: U32, ppre1: Ppre) returns (divByZero: bool)
    modifies dev
    ensures dev != null ==>
              dev.Snapshot() == StartRampedSpec(old(dev.Snapshot()), dir, target, duration, pclk1, ppre1)
    ensures divByZero <==> dev != null && StartRampedFaults(old(dev.Snapshot()), target, duration)
  {
    divByZero := false;
    if dev == null || dev.ramping {
      return;
    }
    var t := Clamp(target);
    var diff := t - dev.speed;
    if diff == 0 {
      return;
    }
    dev.direction := dir;
    dev.running := true;
    dev.target := t;
    dev.ramping := true;
    dev.step := if diff > 0 then 1 else -1;

    var stepCount := if diff < 0 then -diff else diff;
    if stepCount == 0 {
      assert false;
    }
    var interval := IntervalMs(duration, stepCount);
    var timClk := TimerClockAsWritten(pclk1, ppre1);

    dev.armed := false;
    var psc := RampPrescaler(timClk, interval);
    if psc.None? {
      divByZero := true;
      return;
    }
    dev.rampArr := RAMP_ARR;
    dev.rampPsc := psc.value;
    dev.counter := 0;
    dev.armed := true;
  }

  /** `DRV8833_RampInterruptHandler`, run between two foreground calls. */
  method RampInterruptHandler(dev: Driver?)
    modifies dev
    ensures dev != null ==> dev.Snapshot() == TickSpec(old(dev.Snapshot()), dev.arr)
  {
    if dev == null || !dev.ramping {
      return;
    }
    dev.speed := AddWrapU8(dev.speed, dev.step);
    SetSpeed(dev, dev.speed);
    if dev.speed == dev.target {
      dev.ramping := false;
      dev.armed := false;
    }
    if dev.target == 0 {
      dev.running := false;
    }
  }
}
