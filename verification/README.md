# DRV8833 motor driver: a Dafny model

This project models the STM32 HAL driver for the DRV8833 dual H-bridge. The
driver runs one DC motor. It sets the direction and the speed (0 to 100
percent) through the compare registers of two PWM channels, IN1 and IN2. It
can also ramp the speed to a target one unit at a time, driven by the update
interrupt of a second timer.

The model has four modules:

- `Widths` (`widths.dfy`): the C integer types the driver relies on. These
  are `uint8_t` speeds, the `int8_t` ramp step and `uint32_t` register
  arithmetic. Each has its wrap-around written out.
- `RampTiming` (`ramp_timing.dfy`): the arithmetic of `DRV8833_StartRamped`.
  It covers the tick interval, the clock of the ramp timer and the prescaler
  for a timer with auto-reload 999.
- `Drv8833` (`drv8833.dfy`): the driver object. `State` is the driver's
  whole observable state as a value, and each operation has a pure function
  giving the state it leaves. The class `Driver` has one field per member of
  `struct DRV8833_t` and one per timer register the driver writes. The
  methods `Init`, `Start`, `SetSpeed`, `Stop`, `Brake`, `StartRamped`,
  `RampInterruptHandler` and `Destroy` update those fields in place. Each
  method takes a `Driver?` and does nothing on null, as the C functions do
  for a NULL handle. Each is proved to leave exactly the state its function
  describes.
- `RampBehaviour` (`ramp_behaviour.dfy`): what a ramp does over many
  interrupts. `Ticks` runs the interrupt handler n times with no foreground
  call in between.

The hardware is plain state on the object:

- `cmp1` and `cmp2` are the compare registers of IN1 and IN2.
- `arr` is the PWM timer's auto-reload, fixed when the driver is created.
- `pwmOn` records whether both PWM channels are started.
- `armed`, `rampArr`, `rampPsc` and `counter` are the ramp timer's update
  interrupt enable, auto-reload, prescaler and counter.

`StartRamped` takes the PCLK1 frequency and the PPRE1 field of `RCC_CFGR`
as parameters. The interrupt handler is an ordinary method, called between
foreground calls.

`Init` does not assign the direction, the target, the step or the ramp
timer registers. The constructor leaves those fields unassigned, so after
`Init` they hold arbitrary values, as the C struct's fields do after `malloc`.

The tick interval is `duration_ms / step_count`, with a floor of 1 ms. When
it exceeds 1000 ms, `1000 / interval_ms` is 0 and the prescaler computation
at line 94 divides by zero, which is undefined behaviour in C. `StartRamped`
reports that case through its `divByZero` result; `StartRampedFaults` states
when it happens. The state after such a call is the state the C code has
reached at that division: the ramp fields are set (lines 66-70) and the ramp
timer is stopped (line 90). It is not what the chip does next. On a
Cortex-M4 with the default `DIV_0_TRP = 0`, `UDIV` by zero yields 0, so the
compiled code would go on to write prescaler 2^32 - 1 and re-arm the timer;
the model does not follow it there.

Three properties one might expect of the driver do not hold of the code; the
model follows the code and proves what it does instead:

- The speed is not always within 0..100. A
  Stop during a downward ramp lets the next tick wrap the speed from 0 to
  255, because `SetSpeed` no longer clamps once the motor is not running
  (`StopDuringDownRamp`).
- The inactive channel's compare is not always 0 outside braking.
  `StartRamped` changes the direction without
  rewriting the outputs. Until the first tick, the now-inactive channel
  keeps the old duty (`ReversingRampKeepsOldDutyUntilFirstTick`).
- A ramp to 0 does not end with both outputs at 0: the active channel keeps
  the duty its first tick wrote, that of the starting speed minus 1
  (`RampToZero`).

## Model

| member | source | states |
|---|---|---|
| `Widths.AddWrapU8` | header_source_main/drv8833.c:111 | `current_speed += speed_step` is the plain sum when it stays in 0..255 and wraps by 256 in either direction otherwise |
| `Widths.MulU32` | header_source_main/drv8833.c:166 | `timer_period * speed` in `uint32_t` is the true product whenever that product fits in 32 bits |
| `Widths.SubU32` | header_source_main/drv8833.c:94 | the final `- 1` of the prescaler is the true difference unless the quotient is 0, where it wraps to 2^32 - 1 |
| `RampTiming.IntervalMs` | header_source_main/drv8833.c:78-81 | the interval is at least 1 ms; when the duration covers the steps, interval × steps ≤ duration < (interval + 1) × steps; otherwise it is exactly 1 |
| `RampTiming.TimerClockAsWritten` | header_source_main/drv8833.c:83-87 | the clock as coded: PCLK1 when PPRE1 is 0b100, twice PCLK1 (in `uint32_t`) for every other value |
| `RampTiming.TimerClock` | header_source_main/drv8833.c:83-87 | the clock the comment at line 84 intends: PCLK1 when the APB1 prescaler is 1, twice PCLK1 when it is greater than 1 |
| `RampTiming.TimerClockMatchesClockTree` | header_source_main/drv8833.c:83-87 | from HCLK and any PPRE1 value, the corrected rule yields the APB1 timer clock of the STM32F4 clock tree (HCLK / max(1, APB1 divisor / 2)) |
| `RampTiming.TimerClockAsWrittenMisreads` | header_source_main/drv8833.c:84 | the rule as written is wrong exactly for PPRE1 ≤ 0b100 (APB1 undivided or halved) and right for the /4, /8 and /16 settings |
| `RampTiming.RampDivisor` | header_source_main/drv8833.c:94 | the divisor `(1000 / interval_ms) * (new_arr + 1)` is 0 exactly when the interval exceeds 1000 ms, and never above 10^6 |
| `RampTiming.RampPrescaler` | header_source_main/drv8833.c:93-94 | the prescaler fails exactly when the interval exceeds 1000 ms; otherwise (psc + 1) × divisor ≤ timer clock < (psc + 2) × divisor, or psc is 2^32 - 1 when the clock is below the divisor |
| `RampTiming.RampTickRate` | header_source_main/drv8833.c:93-98 | with that prescaler and auto-reload 999, the ramp timer overflows at least 1000 / interval times per second and fewer than twice that often |
| `Drv8833.Clamp` | header_source_main/drv8833.c:157-159 | a requested speed is capped at 100 and otherwise kept |
| `Drv8833.PwmPulse` | header_source_main/drv8833.c:163-166 | the compare value is the floor of the `uint32_t` product `timer_period * speed` divided by 100 |
| `Drv8833.PwmPulseWithinPeriod` | header_source_main/drv8833.c:163-166 | when `arr * 100` fits in 32 bits, the compare value for a speed in 0..100 is the exact share of the period, at most `arr`, `arr` at 100 and 0 at 0 |
| `Drv8833.SetSpeedSpec` | header_source_main/drv8833.c:153-178 | not running: nothing changes; running: the speed becomes the clamped request, the channel of the current direction gets its pulse and the other channel 0, and no ramp field changes |
| `Drv8833.StartSpec` | header_source_main/drv8833.c:141-150 | Start leaves the given direction, running set, the clamped speed, its pulse on the active channel and 0 on the other, and the ramp untouched |
| `Drv8833.StopSpec` | header_source_main/drv8833.c:181-190 | both compares 0, not running, speed 0; the ramp flag and ramp timer are untouched |
| `Drv8833.BrakeSpec` | header_source_main/drv8833.c:192-204 | both compares at the PWM auto-reload, not running, speed 0; the ramp flag and ramp timer are untouched |
| `Drv8833.DestroySpec` | header_source_main/drv8833.c:128-138 | Destroy stops the motor, disarms the ramp timer and stops both PWM channels |
| `Drv8833.StepCount` | header_source_main/drv8833.c:62-74 | the step count is at least 1 whenever StartRamped gets past its early returns, so the `step_count == 0` branch is unreachable |
| `Drv8833.RampInterval` | header_source_main/drv8833.c:72-81 | the interval of an accepted ramp is at least 1 ms |
| `Drv8833.StartRampedSpec` | header_source_main/drv8833.c:57-104 | a no-op while ramping or when the clamped target equals the speed; otherwise sets direction, running, ramping, the clamped target and the step sign; never touches the speed or the compares; re-arms the ramp timer exactly when the divisor is nonzero, with auto-reload 999, counter 0 and the prescaler computed from the clock of line 84 as written |
| `Drv8833.TickSpec` | header_source_main/drv8833.c:106-126 | a no-op unless ramping; otherwise one wrapped step, clamped and driven while running and left unclamped with the outputs untouched otherwise; the ramp ends and its timer disarms exactly when the new speed is the target; a target of 0 clears running |
| `Drv8833.Driver.constructor` | header_source_main/drv8833.c:38-52 | a new driver is neither running nor ramping, has speed 0, both compares 0 and both PWM channels started |
| `Drv8833.Init` | header_source_main/drv8833.c:30-55 | null exactly when allocation fails; otherwise a fresh driver in the state the constructor gives |
| `Drv8833.SetSpeed` | header_source_main/drv8833.c:153-178 | does nothing on null; otherwise leaves exactly `SetSpeedSpec` of the old state |
| `Drv8833.Start` | header_source_main/drv8833.c:141-150 | does nothing on null; otherwise leaves exactly `StartSpec` of the old state |
| `Drv8833.Stop` | header_source_main/drv8833.c:181-190 | does nothing on null; otherwise leaves exactly `StopSpec` of the old state |
| `Drv8833.Brake` | header_source_main/drv8833.c:192-204 | does nothing on null; otherwise leaves exactly `BrakeSpec` of the old state |
| `Drv8833.Destroy` | header_source_main/drv8833.c:128-138 | does nothing on null; otherwise leaves exactly `DestroySpec` of the old state |
| `Drv8833.StartRamped` | header_source_main/drv8833.c:57-104 | does nothing on null; otherwise leaves exactly `StartRampedSpec` of the old state, and reports the division by zero exactly when an accepted ramp's interval exceeds 1000 ms |
| `Drv8833.RampInterruptHandler` | header_source_main/drv8833.c:106-126 | does nothing on null; otherwise leaves exactly `TickSpec` of the old state |
| `RampBehaviour.StartRampedArms` | header_source_main/drv8833.c:57-104 | from a speed within 0..100, an accepted, non-faulting StartRamped arms a ramp whose distance to the target is the step count |
| `RampBehaviour.StartRampedTwice` | header_source_main/drv8833.c:59 | a second StartRamped while the first ramp is in flight leaves the first ramp's state unchanged |
| `RampBehaviour.RampProgress` | header_source_main/drv8833.c:106-120 | for each k below the distance, a ramp to a nonzero target is still in flight after k ticks, with the speed k units along |
| `RampBehaviour.RampCompletes` | header_source_main/drv8833.c:106-126 | a ramp to a nonzero target ends after exactly its distance in ticks: speed at target, ramping and the timer off, still running, target duty on the active channel and 0 on the other |
| `RampBehaviour.Coast` | header_source_main/drv8833.c:106-126 | with the motor not running, ticks move only the speed field, one unit each, until the target ends the ramp |
| `RampBehaviour.CoastProgress` | header_source_main/drv8833.c:106-126 | with the motor not running, the ramp stays in flight for every tick count below the distance to the target |
| `RampBehaviour.RampToZero` | header_source_main/drv8833.c:111-124 | a ramp to 0 clears running on its first tick, is in flight for exactly `speed` ticks and then ends with speed 0 and nothing running or ramping, the active compare still at the duty of speed - 1 |
| `RampBehaviour.RampFromStartRamped` | header_source_main/drv8833.c:57-126 | from the StartRamped call, a ramp to a nonzero target is in flight for exactly the step count in ticks and then ends at the target's duty |
| `RampBehaviour.RampFiftyInHundredMs` | header_source_main/drv8833.c:72-98 | 0 to 50 percent in 100 ms with a PCLK1 of 42 MHz and APB1 at /4: auto-reload 999, prescaler 167, still ramping after 49 ticks, done at 50 after 50 |
| `RampBehaviour.RampAtApb1HalfTicksTwiceTooFast` | header_source_main/drv8833.c:83-98 | with PCLK1 42 MHz and APB1 at /2, a 0 to 50 percent ramp over 100 ms is armed with prescaler 83, while the corrected clock rule gives 167 for the 2 ms tick |
| `RampBehaviour.OvershootPersists` | header_source_main/drv8833.c:106-126 | an upward ramp whose speed is above its nonzero target stays above it, ramping and armed, after any number of ticks |
| `RampBehaviour.StartDuringUpRampNeverEnds` | header_source_main/drv8833.c:141-150 | a Start above the target of an upward ramp in flight makes the ramp run forever |
| `RampBehaviour.StopDuringUpRamp` | header_source_main/drv8833.c:181-190 | after a Stop during an upward ramp, the ramp keeps ticking for `target` more ticks and ends with the motor stopped, both outputs 0 and the speed field at the target |
| `RampBehaviour.StopDuringDownRamp` | header_source_main/drv8833.c:181-190 | after a Stop during a downward ramp, the first tick wraps the speed to 255 and the ramp ends after 256 - target ticks with the motor stopped and both outputs 0 |
| `RampBehaviour.ReversingRampKeepsOldDutyUntilFirstTick` | header_source_main/drv8833.c:66 | a StartRamped that reverses a running motor leaves the old duty on the now-inactive channel until the first tick zeroes it |

## Findings

| source | as written | input that shows it | evidently intended | confidence | as-written member | corrected member |
|---|---|---|---|---|---|---|
| header_source_main/drv8833.c:84 | doubles PCLK1 unless the PPRE1 field equals 0b100 | PPRE1 = 0b100 (APB1 /2, e.g. HCLK 84 MHz, PCLK1 42 MHz): the code takes 42 MHz while the timer runs at 84 MHz, so ramp ticks come twice as fast; PPRE1 = 0b000 (the reset setting): the code takes twice the real timer clock | double exactly when the APB1 prescaler is greater than 1 (PPRE1 ≥ 0b100), as the comment on the line says | high; not executed | `RampTiming.TimerClockAsWritten` | `RampTiming.TimerClock` |

`RampTiming.TimerClockAsWrittenMisreads` shows the discrepancy, and
`RampTiming.TimerClockMatchesClockTree` proves the corrected rule.
`StartRamped` and `StartRampedSpec` compute the clock as the code does, with
`TimerClockAsWritten`. The two rules agree for APB1 divided by 4, 8 or 16.
`RampBehaviour.RampAtApb1HalfTicksTwiceTooFast` shows the effect on the
driver: with APB1 at /2 it writes prescaler 83 where the timer needs 167.

## Left out

- HAL peripheral calls (`HAL_TIM_PWM_Start/Stop`, `HAL_TIM_Base_Start_IT/Stop_IT`): they are reduced to the flags `pwmOn` and `armed`, with no peripheral behaviour behind them.
- The timers do not count: the ramp timer's counter is only the value written to it, and a tick is a call of `RampInterruptHandler`.
- Register widths: compares, auto-reloads and the prescaler are modelled as 32-bit. A 16-bit timer register would truncate larger values, and the model does not capture that.
- `malloc` and `free`: `Init` takes whether allocation succeeds as a parameter. `Destroy` does not release the object, so use after free is not modelled.
- `HAL_RCC_GetPCLK1Freq` and the `RCC->CFGR` read are parameters of `StartRamped`; the clock tree itself is not modelled.
- The configuration struct: the timer handles and channel numbers are not modelled. `cmp1` and `cmp2` stand for the compares of two distinct channels.
- Interrupt preemption and `volatile`: the handler runs whole, between foreground calls, never inside one.
- The processor's reaction to the division by zero at line 94 is not modelled; `StartRamped` reports that it was reached.
- `RampTickRate`: bounds the tick rate within a factor of two and does not give the exact period of one tick.
