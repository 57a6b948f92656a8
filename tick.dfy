/** The system tick (src/tick.c): a 32-bit counter advanced by the Timer0
    overflow interrupt in steps of TICK_PERIOD, snapping back to zero just
    before it would overflow, and the elapsed-time rule built on it. */
module Tick {
  import opened Types

  /** Milliseconds per timer overflow. */
  const TICK_PERIOD: u32 := 2
  const UINT32_MAX: u32 := 0xFFFF_FFFF

  /** The time elapsed at tick value `tick` since reference `ref`: a guarded
      subtraction that answers 0 for a reference lying in the future. */
  function Elapsed(tick: u32, ref: u32): (r: u32)
    ensures ref > tick ==> r == 0
    ensures ref <= tick ==> r == tick - ref && r <= tick
  {
    if ref > tick then 0 else tick - ref
  }

  /** The counter after one overflow interrupt. Whatever the counter held, the
      addition does not overflow, the result is between TICK_PERIOD and
      UINT32_MAX - 1, and an even counter stays even. */
  function NextTick(v: u32): (r: u32)
    ensures v < UINT32_MAX - 2 ==> r == v + TICK_PERIOD
    ensures v >= UINT32_MAX - 2 ==> r == TICK_PERIOD
    ensures TICK_PERIOD <= r <= UINT32_MAX - 1
    ensures v % 2 == 0 ==> r % 2 == 0
  {
    (if v >= UINT32_MAX - 2 then 0 else v) + TICK_PERIOD
  }

  /** The counter after `k` overflow interrupts, starting from `v`. */
  function Steps(v: u32, k: nat): u32
  {
    if k == 0 then v else NextTick(Steps(v, k - 1))
  }

  /** Starting from an even value (such as the initial 0), the counter stays
      even however many interrupts occur, and after at least one it lies
      between TICK_PERIOD and UINT32_MAX - 1. */
  lemma {:induction false} StepsStayEven(v: u32, k: nat)
    requires v % 2 == 0
    ensures Steps(v, k) % 2 == 0
    ensures k > 0 ==> TICK_PERIOD <= Steps(v, k) <= UINT32_MAX - 1
  {
    if k > 0 {
      StepsStayEven(v, k - 1);
    }
  }

  /** As long as no snap to zero occurs, `k` interrupts advance the counter by
      exactly k * TICK_PERIOD, and the elapsed time measured from the starting
      value is exactly that. */
  lemma {:induction false} ElapsedAfterSteps(a: u32, k: nat)
    requires a + TICK_PERIOD * k < UINT32_MAX
    ensures Steps(a, k) == a + TICK_PERIOD * k
    ensures Elapsed(Steps(a, k), a) == TICK_PERIOD * k
  {
    if k > 0 {
      ElapsedAfterSteps(a, k - 1);
    }
  }

  /** From boot, the counter climbs to UINT32_MAX - 1 after 0x7FFF_FFFF
      interrupts, and the next interrupt brings it to TICK_PERIOD, not to 0. */
  lemma WrapPoint()
    ensures Steps(0, 0x7FFF_FFFF) == UINT32_MAX - 1
    ensures Steps(0, 0x8000_0000) == TICK_PERIOD
  {
    ElapsedAfterSteps(0, 0x7FFF_FFFF);
  }

  /** Across the snap the guard hides the elapsed time: a reference taken at
      the last tick before the wrap, read at the first tick after it, reports
      zero elapsed time instead of the one period that actually passed. */
  lemma ElapsedAcrossSnap()
    ensures Steps(0, 0x8000_0000) < Steps(0, 0x7FFF_FFFF)
    ensures Elapsed(Steps(0, 0x8000_0000), Steps(0, 0x7FFF_FFFF)) == 0
  {
    WrapPoint();
  }

  /** The tick module's state: the static tick_val. */
  class TickCounter {
    var tickVal: u32

    /** The counter is even; it holds from boot on (see StepsStayEven). */
    ghost predicate Valid()
      reads this
    {
      tickVal % 2 == 0
    }

    /** tick_val starts at zero. */
    constructor ()
      ensures tickVal == 0 && Valid()
    {
      tickVal := 0;
    }

    /** tick_getTick: the counter, unchanged. */
    method GetTick() returns (t: u32)
      ensures t == tickVal
    {
      t := tickVal;
    }

    /** tick_timeSince */
    method TimeSince(ref: u32) returns (r: u32)
      ensures r == Elapsed(tickVal, ref)
      ensures ref == tickVal ==> r == 0
    {
      if ref > tickVal {
        return 0;
      }
      return tickVal - ref;
    }

    /** The body of ISR(TIMER0_OVF_vect). */
    method OnTimerOverflow()
      requires Valid()
      modifies this
      ensures tickVal == NextTick(old(tickVal))
      ensures Valid() && TICK_PERIOD <= tickVal <= UINT32_MAX - 1
    {
      if tickVal >= UINT32_MAX - 2 {
        tickVal := 0;
      }
      tickVal := tickVal + TICK_PERIOD;
    }
  }
}
