/**
 * The arithmetic `DRV8833_StartRamped` uses to turn a ramp duration into a
 * tick interval and the ramp timer's prescaler: the per-tick interval in
 * milliseconds, the clock the ramp timer runs on, and the prescaler that
 * makes a timer with an auto-reload of 999 overflow once per interval.
 */
module RampTiming {
  import opened Widths

  datatype Option<T> = None | Some(value: T)

  /** Auto-reload the ramp timer is given: 1000 counts per overflow. */
  const RAMP_ARR: U32 := 999

  /** The three PPRE1 bits (bits 12:10 of RCC_CFGR), shifted down. */
  type Ppre = x: int | 0 <= x < 8

  /** Per-tick interval: the duration shared among the steps, but never below 1 ms. */
  function IntervalMs(duration: U32, steps: nat): (r: U32)
    requires 1 <= steps
    ensures 1 <= r
    ensures steps <= duration ==> r * steps <= duration < (r + 1) * steps
    ensures duration < steps ==> r == 1
  {
    var q := duration / steps;
    DivisionBounds(duration, steps);
    if q == 0 then 1 else q
  }

  /** Floor division brackets its dividend between two multiples of the divisor. */
  lemma DivisionBounds(a: nat, b: nat)
    requires 1 <= b
    ensures (a / b) * b <= a < (a / b + 1) * b
  {
    assert a == (a / b) * b + a % b;
  }

  // ---------------------------------------------------------------------
  // Ramp timer clock

  /** Division the APB1 prescaler applies to HCLK for a PPRE1 field value. */
  function Apb1Divisor(ppre1: Ppre): (d: nat)
    ensures d in {1, 2, 4, 8, 16}
    ensures d == 1 <==> ppre1 < 0x4
  {
    if ppre1 < 0x4 then 1
    else if ppre1 == 0x4 then 2
    else if ppre1 == 0x5 then 4
    else if ppre1 == 0x6 then 8
    else 16
  }

  /**
   * The timer clock as the driver computes it: PCLK1, doubled whenever the
   * PPRE1 field is anything but 0b100.
   */
  function TimerClockAsWritten(pclk1: U32, ppre1: Ppre): (r: U32)
    ensures ppre1 == 0x4 ==> r == pclk1
    ensures ppre1 != 0x4 ==> r == MulU32(pclk1, 2)
  {
    if ppre1 != 0x4 then MulU32(pclk1, 2) else pclk1
  }

  /**
   * The timer clock of the STM32F4 clock tree: timers on APB1 run at PCLK1
   * when the APB1 prescaler is 1 and at twice PCLK1 otherwise (the
   * "APB1 Prescaler > 1" test the driver's comment describes).
   */
  function TimerClock(pclk1: U32, ppre1: Ppre): (r: U32)
    ensures Apb1Divisor(ppre1) == 1 ==> r == pclk1
    ensures Apb1Divisor(ppre1) > 1 ==> r == MulU32(pclk1, 2)
  {
    if 0x4 <= ppre1 then MulU32(pclk1, 2) else pclk1
  }

  /** Division between HCLK and the clock an APB1 timer actually receives. */
  function TimerDivisor(ppre1: Ppre): (d: nat)
    ensures d in {1, 2, 4, 8}
  {
    if ppre1 <= 0x4 then 1 else Apb1Divisor(ppre1) / 2
  }

  /**
   * Given the core clock HCLK, the corrected rule yields the clock the APB1
   * timers receive for every PPRE1 setting: HCLK itself when APB1 is
   * undivided or halved, HCLK/2, /4, /8 when it is divided by 4, 8, 16.
   */
  lemma TimerClockMatchesClockTree(hclk: U32, ppre1: Ppre)
    requires hclk % 16 == 0 && hclk < 0x8000_0000
    ensures TimerClock(hclk / Apb1Divisor(ppre1), ppre1) == hclk / TimerDivisor(ppre1)
  {
    if ppre1 == 0x4 {
      assert hclk / 2 * 2 == hclk;
    } else if ppre1 == 0x5 {
      assert hclk / 4 * 2 == hclk / 2;
    } else if ppre1 == 0x6 {
      assert hclk / 8 * 2 == hclk / 4;
    } else if ppre1 == 0x7 {
      assert hclk / 16 * 2 == hclk / 8;
    }
  }

  /**
   * The rule as written gets the clock wrong for every setting in which APB1
   * is undivided (it doubles PCLK1) and for APB1 divided by 2 (it does not):
   * on an 84 MHz part with APB1 at /2 it assumes 42 MHz where the timer runs
   * at 84 MHz, so every ramp tick comes twice as fast as requested.
   */
  lemma TimerClockAsWrittenMisreads(hclk: U32, ppre1: Ppre)
    requires 0 < hclk && hclk % 16 == 0 && hclk < 0x8000_0000
    ensures ppre1 <= 0x4 ==> TimerClockAsWritten(hclk / Apb1Divisor(ppre1), ppre1) != hclk / TimerDivisor(ppre1)
    ensures 0x4 < ppre1 ==> TimerClockAsWritten(hclk / Apb1Divisor(ppre1), ppre1) == hclk / TimerDivisor(ppre1)
  {
    TimerClockMatchesClockTree(hclk, ppre1);
    if ppre1 == 0x4 {
      assert hclk / 2 < hclk;
    }
  }

  // ---------------------------------------------------------------------
  // Ramp timer prescaler

  /** `(1000 / interval_ms) * (new_arr + 1)`: timer counts per second the ramp asks for. */
  function RampDivisor(interval: U32): (d: nat)
    requires 1 <= interval
    ensures d == 0 <==> 1000 < interval
    ensures d <= 1_000_000
  {
    (1000 / interval) * (RAMP_ARR + 1)
  }

  /**
   * The prescaler `tim_clk / ((1000 / interval_ms) * 1000) - 1` in `uint32_t`.
   * None stands for the division by zero an interval above one second causes.
   */
  function RampPrescaler(timClk: U32, interval: U32): (r: Option<U32>)
    requires 1 <= interval
    ensures r.None? <==> 1000 < interval
    ensures r.Some? && RampDivisor(interval) <= timClk ==>
              (r.value + 1) * RampDivisor(interval) <= timClk < (r.value + 2) * RampDivisor(interval)
    ensures r.Some? && timClk < RampDivisor(interval) ==> r.value == WORD_MOD - 1
  {
    var d := RampDivisor(interval);
    if d == 0 then None else Some(SubU32(timClk / d, 1))
  }

  /**
   * When the prescaler does not wrap, the timer clocked at `timClk`, divided
   * by the prescaler and by RAMP_ARR + 1 counts, overflows at least
   * `1000 / interval` times per second and fewer than twice that often.
   */
  lemma RampTickRate(timClk: U32, interval: U32)
    requires 1 <= interval <= 1000
    requires RampDivisor(interval) <= timClk
    ensures var psc := RampPrescaler(timClk, interval).value;
            (psc + 1) * (RAMP_ARR + 1) * (1000 / interval) <= timClk
              < 2 * (psc + 1) * (RAMP_ARR + 1) * (1000 / interval)
  {
    var psc := RampPrescaler(timClk, interval).value;
    var d := RampDivisor(interval);
    assert (psc + 1) * d <= timClk < (psc + 2) * d;
    assert (psc + 1) * (RAMP_ARR + 1) * (1000 / interval) == (psc + 1) * d;
    assert (psc + 2) * d <= 2 * (psc + 1) * d;
  }
}
