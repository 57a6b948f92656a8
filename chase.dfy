/** The main loop of src/main.c: a single lit pixel chasing round a strip of
    eight WS2812 LEDs, with the status LED blinked once per pass. */
module Chase {
  import opened Types
  import opened Pins
  import opened Bus
  import opened Vendor
  import Spi

  const PIXEL_NUM: u8 := 8
  /** The lit pixel `p` and the dark pixel `empty`. */
  const LIT: Pixel := Pixel(0, 100, 0)
  const EMPTY: Pixel := Pixel(0, 0, 0)
  /** Half of the blink period, in milliseconds. */
  const BLINK_MS: nat := 250

  /** The position update `x++; if(x > 7) x = 0;` on a uint8_t. */
  function NextPosition(x: u8): (r: u8)
    ensures r <= 7
    ensures x < 7 ==> r == x + 1
    ensures x >= 7 ==> r == 0
  {
    var y := (x + 1) % 0x100;
    if y > 7 then 0 else y
  }

  /** The position after `n` passes starting from `x`. */
  function Advance(x: u8, n: nat): u8
  {
    if n == 0 then x else NextPosition(Advance(x, n - 1))
  }

  /** From any position in 0..7 the chase moves one step round a cycle of
      eight: after n passes it is at (x + n) mod 8. From the initial 0 the
      first pass gives 1 and every eighth pass is back at 0. */
  lemma {:induction false} AdvanceCycles(x: u8, n: nat)
    requires x <= 7
    ensures Advance(x, n) == (x + n) % 8
  {
    if n > 0 {
      AdvanceCycles(x, n - 1);
      CountStep(x + n - 1);
    }
  }

  /** Counting modulo 8: one more step either adds one or wraps 7 to 0. */
  lemma CountStep(a: nat)
    ensures (a + 1) % 8 == if a % 8 == 7 then 0 else a % 8 + 1
  {
    var q, m := a / 8, a % 8;
    assert a == 8 * q + m && 0 <= m < 8;
    if m < 7 {
      assert a + 1 == 8 * q + (m + 1);
    } else {
      assert a + 1 == 8 * (q + 1);
    }
  }

  /** The strip contents for position x: LIT at x, EMPTY everywhere else. */
  function Strip(x: u8): (s: seq<Pixel>)
    ensures |s| == PIXEL_NUM
  {
    seq(PIXEL_NUM, i => if i == x then LIT else EMPTY)
  }

  /** For a position in 0..7 exactly one pixel of the strip is lit, the one
      at that position. */
  lemma StripHasOneLit(x: u8)
    requires x <= 7
    ensures Strip(x)[x] == LIT
    ensures forall i :: 0 <= i < PIXEL_NUM && Strip(x)[i] == LIT ==> i == x
  {
  }

  /** The ports after one blink of the status LED, switched on and then off
      again: the LED line ends low and every other line keeps its level. */
  function Blink(ps: Ports): (r: Ports)
    ensures !High(r, LED_STAT)
    ensures forall q: Pin :: q != LED_STAT ==> (High(r, q) <==> High(ps, q))
  {
    Lower(Raise(ps, LED_STAT), LED_STAT)
  }

  /** Blinking again from the state a blink leaves changes nothing, so every
      pass after the first starts and ends on the same port state. */
  lemma BlinkSettles(ps: Ports)
    ensures Blink(Blink(ps)) == Blink(ps)
  {
    LevelsDetermine(Blink(Blink(ps)), Blink(ps));
  }

  /** The port state after `k` passes started from `ps`. */
  function After(ps: Ports, k: nat): Ports
  {
    if k == 0 then ps else Blink(ps)
  }

  /** The events of one pass that shows position `x`, started on ports `ps`:
      the frame goes to ws2812_setleds, the LED is switched on, 250 ms pass,
      the LED is switched off and 250 ms pass. */
  function PassTrace(x: u8, ps: Ports): seq<Event>
  {
    [Call(Ws2812SetLeds(Strip(x))), Drive(PortD, Raise(ps, LED_STAT).d), DelayMs(BLINK_MS),
     Drive(PortD, Blink(ps).d), DelayMs(BLINK_MS)]
  }

  /** The events of `n` passes from position `x` and ports `ps`, one pass
      segment after another. */
  function RunTrace(x: u8, ps: Ports, n: nat): seq<Event>
  {
    if n == 0 then [] else RunTrace(x, ps, n - 1) + PassTrace(Advance(x, n), After(ps, n - 1))
  }

  /** n passes produce 5n events, and the i-th pass segment opens by sending
      the frame with pixel (x + i + 1) mod 8 lit: the strip shows the chase
      positions in order, wrapping after the eighth pixel. */
  lemma {:induction false} RunFrames(x: u8, ps: Ports, n: nat)
    requires x <= 7
    ensures |RunTrace(x, ps, n)| == 5 * n
    ensures forall i :: 0 <= i < |RunTrace(x, ps, n)| && i % 5 == 0 ==>
      RunTrace(x, ps, n)[i] == Call(Ws2812SetLeds(Strip(((x as nat + i / 5 + 1) % 8) as u8)))
  {
    if n > 0 {
      RunFrames(x, ps, n - 1);
      AdvanceCycles(x, n);
      var pre := RunTrace(x, ps, n - 1);
      var seg := PassTrace(Advance(x, n), After(ps, n - 1));
      assert RunTrace(x, ps, n) == pre + seg;
      forall i | 0 <= i < |RunTrace(x, ps, n)| && i % 5 == 0
        ensures RunTrace(x, ps, n)[i] == Call(Ws2812SetLeds(Strip(((x as nat + i / 5 + 1) % 8) as u8)))
      {
        if i < |pre| {
          assert RunTrace(x, ps, n)[i] == pre[i];
        } else {
          assert i == 5 * (n - 1) && i / 5 == n - 1;
          assert RunTrace(x, ps, n)[i] == seg[0];
        }
      }
    }
  }

  /** The state main() keeps across passes: `x` and `pixels`. */
  class ChaseLoop {
    var x: u8
    const pixels: array<Pixel>

    ghost predicate Valid()
      reads this
    {
      pixels.Length == PIXEL_NUM && x <= 7
    }

    /** main() up to the loop: x = 0, all pixels dark, spi_init, and the
        status LED pin made an output. */
    constructor (mcu: Mcu)
      modifies mcu`ddr, mcu`ports, mcu`spcr, mcu`trace
      ensures Valid() && fresh(pixels)
      ensures x == 0 && pixels[..] == seq(PIXEL_NUM, _ => EMPTY)
      ensures mcu.ddr == Raise(Raise(Raise(Raise(Raise(old(mcu.ddr), SPI_MOSI), SPI_SCK), SPI_SS), SPI_SD_CS), LED_STAT)
      ensures mcu.ports == Raise(Raise(old(mcu.ports), SPI_SS), SPI_SD_CS)
      ensures mcu.spcr == old(mcu.spcr) | Mask(Spi.SPE) | Mask(Spi.MSTR)
      ensures mcu.trace == old(mcu.trace)
        + [Drive(PortB, Raise(old(mcu.ports), SPI_SS).b), Drive(PortB, mcu.ports.b)]
    {
      x := 0;
      pixels := new Pixel[PIXEL_NUM](_ => EMPTY);
      new;
      Spi.Init(mcu);
      mcu.ddr := Raise(mcu.ddr, LED_STAT);
    }

    /** The fill loop: pixels[i] = (i == x) ? p : empty for every one of the
        PIXEL_NUM entries; nothing else is written. */
    method Fill()
      requires Valid()
      modifies pixels
      ensures pixels[..] == Strip(x)
    {
      var i: u8 := 0;
      while i < PIXEL_NUM
        invariant 0 <= i <= PIXEL_NUM
        invariant forall j :: 0 <= j < i ==> pixels[j] == (if j == x then LIT else EMPTY)
      {
        if i == x {
          pixels[i] := LIT;
        } else {
          pixels[i] := EMPTY;
        }
        i := i + 1;
      }
    }

    /** One pass of the main loop: advance x, refill the strip and send it
        with ws2812_setleds, then blink the status LED (PORTD bit 4) on for
        250 ms and off for 250 ms. Only that bit of the ports changes, and it
        ends low. */
    method Pass(mcu: Mcu)
      requires Valid()
      modifies this`x, pixels, mcu`ports, mcu`trace, mcu`calls
      ensures Valid()
      ensures x == NextPosition(old(x)) && pixels[..] == Strip(x)
      ensures mcu.calls == old(mcu.calls) + 1
      ensures mcu.ports == Blink(old(mcu.ports))
      ensures mcu.trace == old(mcu.trace) + PassTrace(x, old(mcu.ports))
    {
      x := NextPosition(x);
      Fill();
      var _ := mcu.Invoke(Ws2812SetLeds(pixels[..]));
      mcu.WritePort(LED_STAT.port, SetBit(mcu.ports.Get(LED_STAT.port), LED_STAT.bit));
      mcu.DelayMillis(BLINK_MS);
      mcu.WritePort(LED_STAT.port, ClearBit(mcu.ports.Get(LED_STAT.port), LED_STAT.bit));
      mcu.DelayMillis(BLINK_MS);
    }

    /** `passes` passes of the (endless) main loop: the lit pixel has moved
        `passes` places round the strip, one ws2812_setleds call was made per
        pass, the events are the pass segments in order, and after at least
        one pass the status LED is off with every other line as before. */
    method Run(mcu: Mcu, passes: nat)
      requires Valid()
      modifies this`x, pixels, mcu`ports, mcu`trace, mcu`calls
      ensures Valid()
      ensures x == (old(x) + passes) % 8
      ensures passes > 0 ==> pixels[..] == Strip(x)
      ensures passes == 0 ==> pixels[..] == old(pixels[..])
      ensures mcu.calls == old(mcu.calls) + passes
      ensures mcu.ports == After(old(mcu.ports), passes)
      ensures passes > 0 ==> !High(mcu.ports, LED_STAT)
      ensures forall q: Pin :: q != LED_STAT ==> (High(mcu.ports, q) <==> High(old(mcu.ports), q))
      ensures mcu.trace == old(mcu.trace) + RunTrace(old(x), old(mcu.ports), passes)
    {
      var k := 0;
      while k < passes
        invariant 0 <= k <= passes
        invariant Valid()
        invariant x == Advance(old(x), k)
        invariant k > 0 ==> pixels[..] == Strip(x)
        invariant k == 0 ==> pixels[..] == old(pixels[..])
        invariant mcu.calls == old(mcu.calls) + k
        invariant mcu.ports == After(old(mcu.ports), k)
        invariant mcu.trace == old(mcu.trace) + RunTrace(old(x), old(mcu.ports), k)
      {
        if k > 0 {
          BlinkSettles(old(mcu.ports));
        }
        Pass(mcu);
        k := k + 1;
      }
      AdvanceCycles(old(x), passes);
    }
  }
}
