/** The microcontroller as the firmware sees it: the output ports that carry
    the chip-select and control lines, the SPI data register, busy-wait delays
    and calls into the vendor libraries. Everything observable is recorded, in
    order, in a trace of events. */
module Bus {
  import opened Types
  import opened Pins
  import Vendor

  /** One observable step of the firmware. */
  datatype Event =
    | Mosi(byte: u8)                // a byte loaded into SPDR and clocked out
    | Miso(byte: u8)                // a byte copied out of SPDR
    | Drive(port: Port, value: bv8) // a write to an output port register
    | DelayUs(us: nat)              // a _delay_us busy wait
    | DelayMs(ms: nat)              // a _delay_ms busy wait
    | Call(call: Vendor.Call)       // a call into a vendor library

  class Mcu {
    /** PORTB and PORTD. */
    var ports: Ports
    /** DDRB and DDRD. */
    var ddr: Ports
    /** The SPI control register SPCR. */
    var spcr: bv8
    /** Everything the firmware has done, in order. */
    var trace: seq<Event>
    /** The value SPDR holds on the k-th read of it: supplied by the hardware. */
    const miso: nat -> u8
    /** How many times SPDR has been read. */
    var received: nat
    /** The reply of the k-th call into a vendor library: supplied by the library. */
    const vendor: nat -> Vendor.Reply
    /** How many vendor calls have been made. */
    var calls: nat

    /** The state at reset: every register zero, nothing done yet. */
    constructor (miso: nat -> u8, vendor: nat -> Vendor.Reply)
      ensures this.miso == miso && this.vendor == vendor
      ensures ports == Ports(0, 0) && ddr == Ports(0, 0) && spcr == 0
      ensures trace == [] && received == 0 && calls == 0
    {
      this.miso := miso;
      this.vendor := vendor;
      ports := Ports(0, 0);
      ddr := Ports(0, 0);
      spcr := 0;
      trace := [];
      received := 0;
      calls := 0;
    }

    /** `PORTx = v` */
    method WritePort(p: Port, v: bv8)
      modifies this`ports, this`trace
      ensures ports == old(ports).With(p, v)
      ensures trace == old(trace) + [Drive(p, v)]
    {
      ports := ports.With(p, v);
      trace := trace + [Drive(p, v)];
    }

    /** `SPDR = b; while(!(SPSR & (1<<SPIF)));` */
    method Transmit(b: u8)
      modifies this`trace
      ensures trace == old(trace) + [Mosi(b)]
    {
      trace := trace + [Mosi(b)];
    }

    /** A copy out of SPDR. */
    method Receive() returns (b: u8)
      modifies this`trace, this`received
      ensures b == miso(old(received)) && received == old(received) + 1
      ensures trace == old(trace) + [Miso(b)]
    {
      b := miso(received);
      received := received + 1;
      trace := trace + [Miso(b)];
    }

    /** `_delay_us(us)` */
    method DelayMicros(us: nat)
      modifies this`trace
      ensures trace == old(trace) + [DelayUs(us)]
    {
      trace := trace + [DelayUs(us)];
    }

    /** `_delay_ms(ms)` */
    method DelayMillis(ms: nat)
      modifies this`trace
      ensures trace == old(trace) + [DelayMs(ms)]
    {
      trace := trace + [DelayMs(ms)];
    }

    /** A call into a vendor library: recorded, and answered by the library. */
    method Invoke(c: Vendor.Call) returns (reply: Vendor.Reply)
      modifies this`trace, this`calls
      ensures reply == Answer(vendor, old(calls)) && calls == old(calls) + 1
      ensures trace == old(trace) + [Call(c)]
    {
      reply := Answer(vendor, calls);
      calls := calls + 1;
      trace := trace + [Call(c)];
    }
  }

  /** The reply the vendor libraries give to call number `k`, counting from
      zero over the life of the program. */
  function Answer(vendor: nat -> Vendor.Reply, k: nat): Vendor.Reply
  {
    vendor(k)
  }

  /** The events of transmitting `bytes`, first byte first. */
  function Sent(bytes: seq<u8>): (evs: seq<Event>)
    ensures |evs| == |bytes|
  {
    if bytes == [] then [] else [Mosi(bytes[0])] + Sent(bytes[1..])
  }

  /** The events of `n` reads of SPDR starting with the `from`-th. */
  function Received(feed: nat -> u8, from: nat, n: nat): (evs: seq<Event>)
    ensures |evs| == n
    decreases n
  {
    if n == 0 then [] else [Miso(feed(from))] + Received(feed, from + 1, n - 1)
  }

  /** `n` copies of `e`. */
  function Repeat(e: Event, n: nat): (evs: seq<Event>)
    ensures |evs| == n
    ensures forall i :: 0 <= i < n ==> evs[i] == e
  {
    seq(n, _ => e)
  }

  /** The bytes that went out on MOSI during `evs`, in order. */
  function BusOut(evs: seq<Event>): seq<u8>
  {
    if evs == [] then []
    else (if evs[0].Mosi? then [evs[0].byte] else []) + BusOut(evs[1..])
  }

  /** The bytes read from SPDR during `evs`, in order. */
  function BusIn(evs: seq<Event>): seq<u8>
  {
    if evs == [] then []
    else (if evs[0].Miso? then [evs[0].byte] else []) + BusIn(evs[1..])
  }

  /** `evs` writes no port. */
  predicate Quiet(evs: seq<Event>)
  {
    forall i :: 0 <= i < |evs| ==> !evs[i].Drive?
  }

  /** The port values after the port writes of `evs`, starting from `ps`. */
  function Replay(ps: Ports, evs: seq<Event>): Ports
    decreases |evs|
  {
    if evs == [] then ps
    else Replay(if evs[0].Drive? then ps.With(evs[0].port, evs[0].value) else ps, evs[1..])
  }

  /** A chip-select transaction on `pin`, the ports being `ps` before it:
      drive the line low, do `body`, drive the line high again. The deselect
      is a read-modify-write of the port as the body left it, so a body that
      writes other lines of the same port (the display's DC line) keeps them. */
  function Transaction(pin: Pin, ps: Ports, body: seq<Event>): seq<Event>
  {
    var selected := Lower(ps, pin);
    var last := Replay(selected, body);
    [Drive(pin.port, selected.Get(pin.port))] + body + [Drive(pin.port, Raise(last, pin).Get(pin.port))]
  }

  /** No prefix of `evs`, replayed from `ps`, changes the level of any
      chip-select line: the body may drive other lines, but never a select. */
  predicate HoldsSelects(ps: Ports, evs: seq<Event>)
  {
    forall i, q :: 0 <= i <= |evs| && q in CS_PINS ==> (High(Replay(ps, evs[..i]), q) <==> High(ps, q))
  }

  /** A register write as the sensor adapters perform it: select the
      device, send the register address, send the data, deselect. */
  function RegisterWrite(pin: Pin, ps: Ports, reg: u8, data: seq<u8>): seq<Event>
  {
    Transaction(pin, ps, Sent([reg]) + Sent(data))
  }

  /** A register read as the sensor adapters perform it: select the device,
      send the register address, read `n` bytes starting with the `from`-th
      value of SPDR, deselect. */
  function RegisterRead(pin: Pin, ps: Ports, reg: u8, feed: nat -> u8, from: nat, n: nat): seq<Event>
  {
    Transaction(pin, ps, Sent([reg]) + Received(feed, from, n))
  }

  lemma {:induction false} BusOutAppend(a: seq<Event>, b: seq<Event>)
    ensures BusOut(a + b) == BusOut(a) + BusOut(b)
  {
    if a != [] {
      assert (a + b)[0] == a[0] && (a + b)[1..] == a[1..] + b;
      BusOutAppend(a[1..], b);
    } else {
      assert a + b == b;
    }
  }

  lemma {:induction false} BusInAppend(a: seq<Event>, b: seq<Event>)
    ensures BusIn(a + b) == BusIn(a) + BusIn(b)
  {
    if a != [] {
      assert (a + b)[0] == a[0] && (a + b)[1..] == a[1..] + b;
      BusInAppend(a[1..], b);
    } else {
      assert a + b == b;
    }
  }

  /** Transmitting `bytes` puts exactly `bytes` on MOSI, in order, and reads nothing. */
  lemma {:induction false} SentBytes(bytes: seq<u8>)
    ensures BusOut(Sent(bytes)) == bytes
    ensures BusIn(Sent(bytes)) == []
    ensures Quiet(Sent(bytes))
  {
    if bytes != [] {
      SentBytes(bytes[1..]);
      assert Sent(bytes)[1..] == Sent(bytes[1..]);
    }
  }

  /** Reading `n` bytes yields the next `n` values of SPDR and transmits nothing. */
  lemma {:induction false} ReceivedBytes(feed: nat -> u8, from: nat, n: nat)
    ensures BusOut(Received(feed, from, n)) == []
    ensures |BusIn(Received(feed, from, n))| == n
    ensures forall k :: 0 <= k < n ==> BusIn(Received(feed, from, n))[k] == feed(from + k)
    ensures Quiet(Received(feed, from, n))
    decreases n
  {
    if n != 0 {
      ReceivedBytes(feed, from + 1, n - 1);
      assert Received(feed, from, n)[1..] == Received(feed, from + 1, n - 1);
    }
  }

  lemma {:induction false} SentAppend(a: seq<u8>, b: seq<u8>)
    ensures Sent(a + b) == Sent(a) + Sent(b)
  {
    if a != [] {
      assert (a + b)[0] == a[0] && (a + b)[1..] == a[1..] + b;
      SentAppend(a[1..], b);
    } else {
      assert a + b == b;
    }
  }

  /** One more read appends one more event. */
  lemma {:induction false} ReceivedNext(feed: nat -> u8, from: nat, n: nat)
    ensures Received(feed, from, n + 1) == Received(feed, from, n) + [Miso(feed(from + n))]
    decreases n
  {
    if n != 0 {
      ReceivedNext(feed, from + 1, n - 1);
    }
  }

  lemma {:induction false} ReplayAppend(ps: Ports, a: seq<Event>, b: seq<Event>)
    ensures Replay(ps, a + b) == Replay(Replay(ps, a), b)
    decreases |a|
  {
    if a != [] {
      assert (a + b)[0] == a[0] && (a + b)[1..] == a[1..] + b;
      ReplayAppend(if a[0].Drive? then ps.With(a[0].port, a[0].value) else ps, a[1..], b);
    } else {
      assert a + b == b;
    }
  }

  lemma {:induction false} ReplayQuiet(ps: Ports, evs: seq<Event>)
    requires Quiet(evs)
    ensures Replay(ps, evs) == ps
  {
    if evs != [] {
      ReplayQuiet(ps, evs[1..]);
    }
  }

  /** Driving a line low as the first event of a segment. */
  lemma ReplayAfterSelect(pin: Pin, ps: Ports, rest: seq<Event>)
    ensures Replay(ps, [Drive(pin.port, Lower(ps, pin).Get(pin.port))] + rest) == Replay(Lower(ps, pin), rest)
  {
    var evs := [Drive(pin.port, Lower(ps, pin).Get(pin.port))] + rest;
    assert evs[0].Drive? && evs[1..] == rest;
    assert ps.With(pin.port, Lower(ps, pin).Get(pin.port)) == Lower(ps, pin);
  }

  /** The chip-select discipline of a transaction whose body writes no port:
      from the first event of the body to its last, the line is low and every
      other line of both ports is as it was before the transaction. */
  lemma TransactionSelects(pin: Pin, ps: Ports, body: seq<Event>)
    requires Quiet(body)
    ensures var seg := Transaction(pin, ps, body);
      forall i :: 1 <= i <= |body| + 1 ==> Replay(ps, seg[..i]) == Lower(ps, pin)
  {
    var seg := Transaction(pin, ps, body);
    var d0 := Drive(pin.port, Lower(ps, pin).Get(pin.port));
    forall i | 1 <= i <= |body| + 1
      ensures Replay(ps, seg[..i]) == Lower(ps, pin)
    {
      assert seg[..i] == [d0] + body[..i - 1];
      assert Quiet(body[..i - 1]);
      ReplayQuiet(Lower(ps, pin), body[..i - 1]);
      ReplayAfterSelect(pin, ps, body[..i - 1]);
    }
  }

  /** For a body that writes no port the deselect restores the byte the
      select started from: the transaction is select, body, and the selected
      port with the line raised. */
  lemma QuietTransaction(pin: Pin, ps: Ports, body: seq<Event>)
    requires Quiet(body)
    ensures Transaction(pin, ps, body)
      == [Drive(pin.port, Lower(ps, pin).Get(pin.port))] + body
         + [Drive(pin.port, Raise(Lower(ps, pin), pin).Get(pin.port))]
  {
    ReplayQuiet(Lower(ps, pin), body);
  }

  /** A register write, whose body writes no port, spelled out event by
      event after the events `before` it. */
  lemma RegisterWriteUnfolds(before: seq<Event>, pin: Pin, ps: Ports, reg: u8, data: seq<u8>)
    ensures before + RegisterWrite(pin, ps, reg, data)
      == before + [Drive(pin.port, Lower(ps, pin).Get(pin.port))] + Sent([reg]) + Sent(data)
         + [Drive(pin.port, Raise(ps, pin).Get(pin.port))]
  {
    SentBytes([reg]);
    SentBytes(data);
    assert Quiet(Sent([reg]) + Sent(data));
    QuietTransaction(pin, ps, Sent([reg]) + Sent(data));
    LowerThenRaise(ps, pin);
  }

  /** A register read, whose body writes no port, spelled out event by event
      after the events `before` it. */
  lemma RegisterReadUnfolds(before: seq<Event>, pin: Pin, ps: Ports, reg: u8, feed: nat -> u8, from: nat, n: nat)
    ensures before + RegisterRead(pin, ps, reg, feed, from, n)
      == before + [Drive(pin.port, Lower(ps, pin).Get(pin.port))] + Sent([reg]) + Received(feed, from, n)
         + [Drive(pin.port, Raise(ps, pin).Get(pin.port))]
  {
    SentBytes([reg]);
    ReceivedBytes(feed, from, n);
    assert Quiet(Sent([reg]) + Received(feed, from, n));
    QuietTransaction(pin, ps, Sent([reg]) + Received(feed, from, n));
    LowerThenRaise(ps, pin);
  }

  /** A body that writes no port holds every select. */
  lemma QuietHolds(ps: Ports, evs: seq<Event>)
    requires Quiet(evs)
    ensures HoldsSelects(ps, evs)
  {
    forall i | 0 <= i <= |evs|
      ensures Replay(ps, evs[..i]) == ps
    {
      assert Quiet(evs[..i]);
      ReplayQuiet(ps, evs[..i]);
    }
  }

  /** After a transaction whose body writes no port, the line is high again
      and every other line is as it was; the body's bytes are the
      transaction's bytes. */
  lemma TransactionEnds(pin: Pin, ps: Ports, body: seq<Event>)
    requires Quiet(body)
    ensures var seg := Transaction(pin, ps, body);
      && Replay(ps, seg) == Raise(ps, pin)
      && BusOut(seg) == BusOut(body)
      && BusIn(seg) == BusIn(body)
  {
    var sel := Lower(ps, pin);
    var d0 := Drive(pin.port, sel.Get(pin.port));
    var d1 := Drive(pin.port, Raise(sel, pin).Get(pin.port));
    QuietTransaction(pin, ps, body);
    assert Transaction(pin, ps, body) == [d0] + body + [d1];
    ReplayAppend(ps, [d0] + body, [d1]);
    ReplayAfterSelect(pin, ps, body);
    ReplayQuiet(sel, body);
    assert Replay(sel, [d1]) == Raise(sel, pin);
    ClearThenSet(ps.Get(pin.port), pin.bit);
    BusOutAppend([d0], body);
    BusOutAppend([d0] + body, [d1]);
    BusInAppend([d0], body);
    BusInAppend([d0] + body, [d1]);
  }

  /** The chip-select discipline of any transaction whose body holds the
      selects: while the body runs, every select has the level it has with
      just `pin` lowered. */
  lemma TransactionHoldsDuring(pin: Pin, ps: Ports, body: seq<Event>)
    requires HoldsSelects(Lower(ps, pin), body)
    ensures var seg := Transaction(pin, ps, body);
      forall i, q :: 1 <= i <= |body| + 1 && q in CS_PINS ==>
        (High(Replay(ps, seg[..i]), q) <==> High(Lower(ps, pin), q))
  {
    var sel := Lower(ps, pin);
    var seg := Transaction(pin, ps, body);
    var d0 := Drive(pin.port, sel.Get(pin.port));
    forall i, q | 1 <= i <= |body| + 1 && q in CS_PINS
      ensures High(Replay(ps, seg[..i]), q) <==> High(sel, q)
    {
      assert seg[..i] == [d0] + body[..i - 1];
      ReplayAfterSelect(pin, ps, body[..i - 1]);
    }
  }

  /** The ports after a whole transaction: those the body left, with the
      line raised. */
  lemma TransactionFinal(pin: Pin, ps: Ports, body: seq<Event>)
    ensures Replay(ps, Transaction(pin, ps, body)) == Raise(Replay(Lower(ps, pin), body), pin)
  {
    var sel := Lower(ps, pin);
    var last := Replay(sel, body);
    var d0 := Drive(pin.port, sel.Get(pin.port));
    var d1 := Drive(pin.port, Raise(last, pin).Get(pin.port));
    assert Transaction(pin, ps, body) == [d0] + body + [d1];
    ReplayAppend(ps, [d0] + body, [d1]);
    ReplayAfterSelect(pin, ps, body);
    assert Replay(last, [d1]) == Raise(last, pin);
  }

  /** ... and afterwards every select has the level it has with `pin` raised. */
  lemma TransactionHoldsAfter(pin: Pin, ps: Ports, body: seq<Event>)
    requires HoldsSelects(Lower(ps, pin), body)
    ensures var seg := Transaction(pin, ps, body);
      forall q :: q in CS_PINS ==> (High(Replay(ps, seg), q) <==> High(Raise(ps, pin), q))
  {
    var sel := Lower(ps, pin);
    var last := Replay(sel, body);
    TransactionFinal(pin, ps, body);
    assert body[..|body|] == body;
    forall q | q in CS_PINS
      ensures High(Raise(last, pin), q) <==> High(Raise(ps, pin), q)
    {
      if q != pin {
        assert High(Replay(sel, body[..|body|]), q) <==> High(sel, q);
      }
    }
  }

  /** Both halves together. */
  lemma TransactionHolds(pin: Pin, ps: Ports, body: seq<Event>)
    requires HoldsSelects(Lower(ps, pin), body)
    ensures var seg := Transaction(pin, ps, body);
      && (forall i, q :: 1 <= i <= |body| + 1 && q in CS_PINS ==>
            (High(Replay(ps, seg[..i]), q) <==> High(Lower(ps, pin), q)))
      && (forall q :: q in CS_PINS ==> (High(Replay(ps, seg), q) <==> High(Raise(ps, pin), q)))
  {
    TransactionHoldsDuring(pin, ps, body);
    TransactionHoldsAfter(pin, ps, body);
  }

  /** The shared-bus rule. A transaction on one of the board's chip-select
      lines, started while no line is asserted and with a body that drives
      no select, never has two lines asserted at once and ends with the bus
      idle; when the body writes no port at all, the ports end as they were. */
  lemma TransactionExclusive(pin: Pin, ps: Ports, body: seq<Event>)
    requires pin in CS_PINS && Idle(ps) && HoldsSelects(Lower(ps, pin), body)
    ensures var seg := Transaction(pin, ps, body);
      && (forall i :: 0 <= i <= |seg| ==> AtMostOneSelected(Replay(ps, seg[..i])))
      && Idle(Replay(ps, seg))
      && (Quiet(body) ==> Replay(ps, seg) == ps)
  {
    var seg := Transaction(pin, ps, body);
    TransactionHolds(pin, ps, body);
    if Quiet(body) {
      TransactionEnds(pin, ps, body);
      ClearThenSet(ps.Get(pin.port), pin.bit);
      assert ps.With(pin.port, ps.Get(pin.port)) == ps;
    }
    forall i | 0 <= i <= |seg|
      ensures AtMostOneSelected(Replay(ps, seg[..i]))
    {
      if i == 0 {
        assert seg[..i] == [];
      } else if i == |seg| {
        assert seg[..i] == seg;
      }
    }
  }

  /** A register write puts the address and then the data on the bus, reads
      nothing, keeps the device selected from the address to the last data
      byte and deselects it afterwards, touching no other line. */
  lemma RegisterWriteShape(pin: Pin, ps: Ports, reg: u8, data: seq<u8>)
    ensures var seg := RegisterWrite(pin, ps, reg, data);
      && BusOut(seg) == [reg] + data
      && BusIn(seg) == []
      && (forall i :: 1 <= i <= |data| + 2 ==> Replay(ps, seg[..i]) == Lower(ps, pin))
      && Replay(ps, seg) == Raise(ps, pin)
  {
    var body := Sent([reg]) + Sent(data);
    SentAppend([reg], data);
    SentBytes([reg] + data);
    TransactionSelects(pin, ps, body);
    TransactionEnds(pin, ps, body);
  }

  /** A register read puts only the address on the bus, then reads the next
      `n` values of SPDR, all while the device is selected; afterwards the
      device is deselected and no other line has changed. */
  lemma RegisterReadShape(pin: Pin, ps: Ports, reg: u8, feed: nat -> u8, from: nat, n: nat)
    ensures var seg := RegisterRead(pin, ps, reg, feed, from, n);
      && BusOut(seg) == [reg]
      && |BusIn(seg)| == n
      && (forall k :: 0 <= k < n ==> BusIn(seg)[k] == feed(from + k))
      && seg[1] == Mosi(reg)
      && (forall i :: 2 <= i < |seg| - 1 ==> seg[i].Miso?)
      && (forall i :: 1 <= i <= n + 2 ==> Replay(ps, seg[..i]) == Lower(ps, pin))
      && Replay(ps, seg) == Raise(ps, pin)
  {
    var body := Sent([reg]) + Received(feed, from, n);
    SentBytes([reg]);
    ReceivedBytes(feed, from, n);
    BusOutAppend(Sent([reg]), Received(feed, from, n));
    BusInAppend(Sent([reg]), Received(feed, from, n));
    assert Quiet(body);
    TransactionSelects(pin, ps, body);
    TransactionEnds(pin, ps, body);
    ReceivedAreReads(feed, from, n);
  }

  /** Every event of a read burst is a read of SPDR, and the k-th carries the
      (from + k)-th value of the feed. */
  lemma {:induction false} ReceivedAreReads(feed: nat -> u8, from: nat, n: nat)
    ensures forall i :: 0 <= i < n ==> Received(feed, from, n)[i] == Miso(feed(from + i))
    decreases n
  {
    if n != 0 {
      ReceivedAreReads(feed, from + 1, n - 1);
      assert Received(feed, from, n)[1..] == Received(feed, from + 1, n - 1);
    }
  }
}
