/** The SSD1306 display adapter (src/display.c): the pin helpers and the two
    callbacks through which the u8g2 library drives the display, over the
    shared SPI bus and the display's chip-select, reset and data/command
    lines. */
module Display {
  import opened Types
  import opened Pins
  import opened Bus
  import Spi

  /** The u8x8 messages the callbacks distinguish; OtherMsg stands for every
      message code other than the eight named ones. */
  datatype Msg =
    | ByteSend
    | ByteSetDc
    | ByteStartTransfer
    | ByteEndTransfer
    | GpioAndDelayInit
    | DelayMilli
    | GpioDc
    | GpioReset
    | OtherMsg

  /** The ports after setting `pin` to `val` the way the _set_*_pin helpers
      do: a non-zero value drives it high, zero drives it low. */
  function Level(ps: Ports, pin: Pin, val: u8): (r: Ports)
    ensures High(r, pin) <==> val != 0
    ensures forall q: Pin :: q != pin ==> (High(r, q) <==> High(ps, q))
  {
    if val != 0 then Raise(ps, pin) else Lower(ps, pin)
  }

  /** The body shared by the three _set_*_pin helpers: a read-modify-write
      of the pin's port that sets the bit for a non-zero `val` and clears it
      for zero, recorded as one port write. */
  method SetPin(mcu: Mcu, pin: Pin, val: u8)
    modifies mcu`ports, mcu`trace
    ensures mcu.ports == Level(old(mcu.ports), pin, val)
    ensures mcu.trace == old(mcu.trace) + [Drive(pin.port, mcu.ports.Get(pin.port))]
  {
    var v := mcu.ports.Get(pin.port);
    if val != 0 {
      mcu.WritePort(pin.port, SetBit(v, pin.bit));
    } else {
      mcu.WritePort(pin.port, ClearBit(v, pin.bit));
    }
  }

  /** _set_cs_pin: the display's chip select, PORTD bit 6. */
  method SetCsPin(mcu: Mcu, val: u8)
    modifies mcu`ports, mcu`trace
    ensures mcu.ports == Level(old(mcu.ports), SPI_DISP_CS, val)
    ensures mcu.trace == old(mcu.trace) + [Drive(PortD, mcu.ports.d)]
  {
    SetPin(mcu, SPI_DISP_CS, val);
  }

  /** _set_res_pin: the display's reset line, PORTB bit 4. */
  method SetResPin(mcu: Mcu, val: u8)
    modifies mcu`ports, mcu`trace
    ensures mcu.ports == Level(old(mcu.ports), DISP_RES, val)
    ensures mcu.trace == old(mcu.trace) + [Drive(PortB, mcu.ports.b)]
  {
    SetPin(mcu, DISP_RES, val);
  }

  /** _set_dc_pin: the display's data/command line, PORTD bit 7. */
  method SetDcPin(mcu: Mcu, val: u8)
    modifies mcu`ports, mcu`trace
    ensures mcu.ports == Level(old(mcu.ports), DISP_DC, val)
    ensures mcu.trace == old(mcu.trace) + [Drive(PortD, mcu.ports.d)]
  {
    SetPin(mcu, DISP_DC, val);
  }

  /** u8g2_gpio_and_delay_avr: answers 1 to every message. Init waits one
      millisecond, DelayMilli waits `argInt` single milliseconds, GpioDc and
      GpioReset set the DC and RES lines to `argInt`; anything else does
      nothing. */
  method GpioAndDelay(mcu: Mcu, msg: Msg, argInt: u8) returns (r: u8)
    modifies mcu`ports, mcu`trace
    ensures r == 1
    ensures msg == GpioAndDelayInit ==>
      mcu.ports == old(mcu.ports) && mcu.trace == old(mcu.trace) + [DelayMs(1)]
    ensures msg == DelayMilli ==>
      mcu.ports == old(mcu.ports) && mcu.trace == old(mcu.trace) + Repeat(DelayMs(1), argInt)
    ensures msg == GpioDc ==>
      && mcu.ports == Level(old(mcu.ports), DISP_DC, argInt)
      && mcu.trace == old(mcu.trace) + [Drive(PortD, mcu.ports.d)]
    ensures msg == GpioReset ==>
      && mcu.ports == Level(old(mcu.ports), DISP_RES, argInt)
      && mcu.trace == old(mcu.trace) + [Drive(PortB, mcu.ports.b)]
    ensures msg !in {GpioAndDelayInit, DelayMilli, GpioDc, GpioReset} ==>
      mcu.ports == old(mcu.ports) && mcu.trace == old(mcu.trace)
  {
    match msg {
      case GpioAndDelayInit =>
        mcu.DelayMillis(1);
      case DelayMilli =>
        var count := argInt;
        while count != 0
          invariant 0 <= count <= argInt
          invariant mcu.ports == old(mcu.ports)
          invariant mcu.trace == old(mcu.trace) + Repeat(DelayMs(1), argInt - count)
        {
          count := count - 1;
          mcu.DelayMillis(1);
        }
      case GpioDc =>
        SetDcPin(mcu, argInt);
      case GpioReset =>
        SetResPin(mcu, argInt);
      case _ =>
    }
    return 1;
  }

  /** u8x8_byte_4wire_sw_spi_avr. ByteSend passes the buffer and length to
      spi_write and answers 1; ByteSetDc sets the DC line and answers 1;
      ByteStartTransfer asserts the display's chip select and answers 1;
      ByteEndTransfer deasserts it and, falling through to the default
      case, answers 0; any other message answers 0 and does nothing. */
  method ByteCallback(mcu: Mcu, msg: Msg, argInt: u8, argPtr: array?<u8>) returns (r: u8)
    requires msg == ByteSend && argPtr != null ==> argInt <= argPtr.Length
    modifies mcu`ports, mcu`trace
    ensures r == (if msg in {ByteSend, ByteSetDc, ByteStartTransfer} then 1 else 0)
    ensures msg == ByteSend ==>
      && mcu.ports == old(mcu.ports)
      && mcu.trace == old(mcu.trace) + (if argPtr == null then [] else Sent(argPtr[..argInt]))
    ensures msg == ByteSetDc ==>
      && mcu.ports == Level(old(mcu.ports), DISP_DC, argInt)
      && mcu.trace == old(mcu.trace) + [Drive(PortD, mcu.ports.d)]
    ensures msg == ByteStartTransfer ==>
      && mcu.ports == Lower(old(mcu.ports), SPI_DISP_CS)
      && mcu.trace == old(mcu.trace) + [Drive(PortD, mcu.ports.d)]
    ensures msg == ByteEndTransfer ==>
      && mcu.ports == Raise(old(mcu.ports), SPI_DISP_CS)
      && mcu.trace == old(mcu.trace) + [Drive(PortD, mcu.ports.d)]
    ensures msg !in {ByteSend, ByteSetDc, ByteStartTransfer, ByteEndTransfer} ==>
      mcu.ports == old(mcu.ports) && mcu.trace == old(mcu.trace)
  {
    match msg {
      case ByteSend =>
        var _ := Spi.Write(mcu, argPtr, argInt);
      case ByteSetDc =>
        SetDcPin(mcu, argInt);
      case ByteStartTransfer =>
        SetCsPin(mcu, 0);
      case ByteEndTransfer =>
        SetCsPin(mcu, 1);
        return 0;
      case _ =>
        return 0;
    }
    return 1;
  }

  /** The events of one transfer as u8g2's byte layer drives the callback
      (u8g2 itself is not part of this model), the ports being `ps` before
      it: START_TRANSFER selects the display, SET_DC drives DC to `dc`, SEND
      puts `bytes` on the bus, END_TRANSFER deselects it. */
  function SessionEvents(ps: Ports, dc: u8, bytes: seq<u8>): seq<Event>
  {
    var selected := Lower(ps, SPI_DISP_CS);
    var dcSet := Level(selected, DISP_DC, dc);
    [Drive(PortD, selected.d), Drive(PortD, dcSet.d)] + Sent(bytes) + [Drive(PortD, Raise(dcSet, SPI_DISP_CS).d)]
  }

  /** One transfer driven through u8x8_byte_4wire_sw_spi_avr in the order
      u8g2 issues the messages: the events are exactly SessionEvents, and
      the display ends deselected with DC at its new level. */
  method TransferSession(mcu: Mcu, dc: u8, buf: array<u8>, len: u8)
    requires len <= buf.Length
    modifies mcu`ports, mcu`trace
    ensures mcu.ports == Raise(Level(Lower(old(mcu.ports), SPI_DISP_CS), DISP_DC, dc), SPI_DISP_CS)
    ensures mcu.trace == old(mcu.trace) + SessionEvents(old(mcu.ports), dc, buf[..len])
  {
    var _ := ByteCallback(mcu, ByteStartTransfer, 0, null);
    var _ := ByteCallback(mcu, ByteSetDc, dc, null);
    var _ := ByteCallback(mcu, ByteSend, len, buf);
    var _ := ByteCallback(mcu, ByteEndTransfer, 0, null);
    SessionUnfolds(old(mcu.trace), old(mcu.ports), dc, buf[..len]);
  }

  /** SessionEvents, one event group at a time as the callbacks append them. */
  lemma SessionUnfolds(before: seq<Event>, ps: Ports, dc: u8, bytes: seq<u8>)
    ensures var selected := Lower(ps, SPI_DISP_CS);
      var dcSet := Level(selected, DISP_DC, dc);
      before + [Drive(PortD, selected.d)] + [Drive(PortD, dcSet.d)] + Sent(bytes) + [Drive(PortD, Raise(dcSet, SPI_DISP_CS).d)]
        == before + SessionEvents(ps, dc, bytes)
  {
  }

  /** The body of a display transfer: the DC write, then the data bytes. */
  function SessionBody(ps: Ports, dc: u8, bytes: seq<u8>): seq<Event>
  {
    [Drive(PortD, Level(Lower(ps, SPI_DISP_CS), DISP_DC, dc).d)] + Sent(bytes)
  }

  /** Replaying any non-empty prefix of the body from the selected ports
      gives the selected ports with DC at its new level. */
  lemma SessionBodyReplay(ps: Ports, dc: u8, bytes: seq<u8>)
    ensures var sel := Lower(ps, SPI_DISP_CS);
      forall i :: 1 <= i <= |SessionBody(ps, dc, bytes)| ==>
        Replay(sel, SessionBody(ps, dc, bytes)[..i]) == Level(sel, DISP_DC, dc)
  {
    var sel := Lower(ps, SPI_DISP_CS);
    var dcSet := Level(sel, DISP_DC, dc);
    var body := SessionBody(ps, dc, bytes);
    SentBytes(bytes);
    assert sel.With(PortD, dcSet.d) == dcSet;
    forall i | 1 <= i <= |body|
      ensures Replay(sel, body[..i]) == dcSet
    {
      assert body[..i][0] == Drive(PortD, dcSet.d) && body[..i][1..] == Sent(bytes)[..i - 1];
      assert Quiet(Sent(bytes)[..i - 1]);
      ReplayQuiet(dcSet, Sent(bytes)[..i - 1]);
    }
  }

  /** A display transfer is a chip-select transaction on the display's
      select whose body is the DC write and the data. */
  lemma SessionIsTransaction(ps: Ports, dc: u8, bytes: seq<u8>)
    ensures SessionEvents(ps, dc, bytes) == Transaction(SPI_DISP_CS, ps, SessionBody(ps, dc, bytes))
  {
    var body := SessionBody(ps, dc, bytes);
    SessionBodyReplay(ps, dc, bytes);
    assert body[..|body|] == body;
  }

  /** The body drives the DC line, so it writes a port, but never changes
      the level of a select. */
  lemma SessionHoldsSelects(ps: Ports, dc: u8, bytes: seq<u8>)
    ensures HoldsSelects(Lower(ps, SPI_DISP_CS), SessionBody(ps, dc, bytes))
    ensures !Quiet(SessionBody(ps, dc, bytes))
  {
    var body := SessionBody(ps, dc, bytes);
    SessionBodyReplay(ps, dc, bytes);
    assert DISP_DC !in CS_PINS;
    assert body[..0] == [];
    assert body[0].Drive?;
  }

  /** Started from an idle bus, a display transfer never has two selects
      low at once and leaves the bus idle, although it moves the DC line. */
  lemma SessionExclusive(ps: Ports, dc: u8, bytes: seq<u8>)
    requires Idle(ps)
    ensures var evs := SessionEvents(ps, dc, bytes);
      && (forall i :: 0 <= i <= |evs| ==> AtMostOneSelected(Replay(ps, evs[..i])))
      && Idle(Replay(ps, evs))
  {
    SessionIsTransaction(ps, dc, bytes);
    SessionHoldsSelects(ps, dc, bytes);
    TransactionExclusive(SPI_DISP_CS, ps, SessionBody(ps, dc, bytes));
  }
}
