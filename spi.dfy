/** The blocking SPI byte-transfer layer (src/spi.c) and the chip-select
    primitive declared in inc/spi.h. */
module Spi {
  import opened Types
  import opened Pins
  import opened Bus

  /** Status codes of stdlib.h as avr-libc defines them. */
  const EXIT_SUCCESS: u8 := 0
  const EXIT_FAILURE: u8 := 1

  /** SPCR bits: SPI enable and master mode. */
  const SPE: BitIndex := 6
  const MSTR: BitIndex := 4

  /** spi_init: MOSI, SCK, !SS and the SD card's chip select become outputs,
      !SS and the SD chip select are driven high (deasserted), and the SPI
      module is enabled in master mode. No other bit changes. */
  method Init(mcu: Mcu)
    modifies mcu`ddr, mcu`ports, mcu`spcr, mcu`trace
    ensures mcu.ddr == Raise(Raise(Raise(Raise(old(mcu.ddr), SPI_MOSI), SPI_SCK), SPI_SS), SPI_SD_CS)
    ensures mcu.ports == Raise(Raise(old(mcu.ports), SPI_SS), SPI_SD_CS)
    ensures High(mcu.ports, SPI_SS) && High(mcu.ports, SPI_SD_CS)
    ensures mcu.spcr == old(mcu.spcr) | Mask(SPE) | Mask(MSTR)
    ensures mcu.trace == old(mcu.trace)
      + [Drive(PortB, Raise(old(mcu.ports), SPI_SS).b), Drive(PortB, mcu.ports.b)]
  {
    mcu.ddr := Raise(Raise(mcu.ddr, SPI_MOSI), SPI_SCK);
    mcu.ddr := Raise(mcu.ddr, SPI_SS);
    mcu.WritePort(PortB, SetBit(mcu.ports.b, SPI_SS.bit));
    mcu.ddr := Raise(mcu.ddr, SPI_SD_CS);
    mcu.WritePort(PortB, SetBit(mcu.ports.b, SPI_SD_CS.bit));
    mcu.spcr := mcu.spcr | Mask(SPE) | Mask(MSTR);
  }

  /** The lines as spi_init leaves them after reset, when every port and
      data-direction bit is 0: only !SS and the SD card's select are driven
      high. The BME280 and display selects are still low, so the bus is not
      idle and two selects read as asserted at once; neither line is even an
      output, since no code sets their data-direction bits. */
  lemma BootSelects()
    ensures var ps := Raise(Raise(Ports(0, 0), SPI_SS), SPI_SD_CS);
      && High(ps, SPI_SD_CS)
      && !High(ps, SPI_BME280_CS) && !High(ps, SPI_DISP_CS)
      && !Idle(ps) && !AtMostOneSelected(ps)
    ensures var ddr := Raise(Raise(Raise(Raise(Ports(0, 0), SPI_MOSI), SPI_SCK), SPI_SS), SPI_SD_CS);
      !High(ddr, SPI_BME280_CS) && !High(ddr, SPI_DISP_CS)
  {
    var ps := Raise(Raise(Ports(0, 0), SPI_SS), SPI_SD_CS);
    assert !High(Ports(0, 0), SPI_BME280_CS) && !High(Ports(0, 0), SPI_DISP_CS);
    assert SPI_BME280_CS in CS_PINS && SPI_DISP_CS in CS_PINS && SPI_BME280_CS != SPI_DISP_CS;
  }

  /** The shared-bus rule takes hold once each of the two selects spi_init
      leaves low has finished one transaction: from any state with the SD
      card deselected, a BME280 transaction (whose body writes no port)
      followed by a display transaction (whose body may drive other lines,
      such as DC, but no select) leaves every select high. */
  lemma SelectsSettle(ps: Ports, b1: seq<Event>, b2: seq<Event>)
    requires High(ps, SPI_SD_CS) && Quiet(b1)
    requires HoldsSelects(Lower(Raise(ps, SPI_BME280_CS), SPI_DISP_CS), b2)
    ensures var ps1 := Replay(ps, Transaction(SPI_BME280_CS, ps, b1));
      var ps2 := Replay(ps1, Transaction(SPI_DISP_CS, ps1, b2));
      Idle(ps2)
  {
    var ps1 := Replay(ps, Transaction(SPI_BME280_CS, ps, b1));
    TransactionEnds(SPI_BME280_CS, ps, b1);
    assert High(ps1, SPI_SD_CS) && High(ps1, SPI_BME280_CS);
    var ps2 := Replay(ps1, Transaction(SPI_DISP_CS, ps1, b2));
    TransactionHolds(SPI_DISP_CS, ps1, b2);
    forall q | q in CS_PINS
      ensures High(ps2, q)
    {
      assert High(ps2, q) <==> High(Raise(ps1, SPI_DISP_CS), q);
    }
  }

  /** spi_write: a zero length or a NULL buffer is refused and nothing is
      sent; otherwise buf[0..len) goes out on the bus in index order. */
  method Write(mcu: Mcu, buf: array?<u8>, len: u8) returns (status: u8)
    requires buf != null ==> len <= buf.Length
    modifies mcu`trace
    ensures len == 0 || buf == null ==> status == EXIT_FAILURE && mcu.trace == old(mcu.trace)
    ensures len != 0 && buf != null ==>
      status == EXIT_SUCCESS && mcu.trace == old(mcu.trace) + Sent(buf[..len])
  {
    var txCount: u8 := 0;
    if len <= 0 || buf == null {
      return EXIT_FAILURE;
    }
    while txCount < len
      invariant txCount <= len
      invariant mcu.trace == old(mcu.trace) + Sent(buf[..txCount])
    {
      mcu.Transmit(buf[txCount]);
      SentAppend(buf[..txCount], [buf[txCount]]);
      assert buf[..txCount + 1] == buf[..txCount] + [buf[txCount]];
      txCount := txCount + 1;
    }
    return EXIT_SUCCESS;
  }

  /** spi_read: a zero length or a NULL buffer is refused and nothing
      changes. Otherwise `len` bytes are copied out of SPDR, the k-th copy
      (counting from 0) landing in buf[len - k]: buf[len] is written first and buf[1] last,
      buf[0] is never written, so the buffer must hold len + 1 bytes. */
  method Read(mcu: Mcu, buf: array?<u8>, len: u8) returns (status: u8)
    requires buf != null && len != 0 ==> len < buf.Length
    modifies buf, mcu`trace, mcu`received
    ensures len == 0 || buf == null ==>
      && status == EXIT_FAILURE
      && mcu.trace == old(mcu.trace) && mcu.received == old(mcu.received)
      && (buf != null ==> buf[..] == old(buf[..]))
    ensures len != 0 && buf != null ==>
      && status == EXIT_SUCCESS
      && mcu.received == old(mcu.received) + len
      && mcu.trace == old(mcu.trace) + Received(mcu.miso, old(mcu.received), len)
      && buf[0] == old(buf[0])
      && (forall j :: 1 <= j <= len ==> buf[j] == mcu.miso(old(mcu.received) + (len - j)))
      && (forall j :: len < j < buf.Length ==> buf[j] == old(buf[j]))
  {
    if len <= 0 || buf == null {
      return EXIT_FAILURE;
    }
    var n := len;
    while n > 0
      invariant 0 <= n <= len < buf.Length
      invariant mcu.received == old(mcu.received) + (len - n)
      invariant mcu.trace == old(mcu.trace) + Received(mcu.miso, old(mcu.received), len - n)
      invariant forall j: int :: 0 <= j <= n ==> buf[j] == old(buf[j])
      invariant forall j: int :: n < j <= len ==> buf[j] == mcu.miso(old(mcu.received) + (len - j))
      invariant forall j :: len < j < buf.Length ==> buf[j] == old(buf[j])
    {
      ReceivedNext(mcu.miso, old(mcu.received), len - n);
      var b := mcu.Receive();
      buf[n] := b;
      n := n - 1;
    }
    return EXIT_SUCCESS;
  }

  /** spi_assertCS (declared in inc/spi.h, its body is not part of this
      model): writes `val` to the pin, zero driving it low (asserting the
      chip select) and any other value driving it high. Only that bit of that
      port changes. */
  method AssertCS(mcu: Mcu, pin: Pin, val: u8)
    modifies mcu`ports, mcu`trace
    ensures mcu.ports == if val == 0 then Lower(old(mcu.ports), pin) else Raise(old(mcu.ports), pin)
    ensures mcu.trace == old(mcu.trace) + [Drive(pin.port, mcu.ports.Get(pin.port))]
  {
    var v := mcu.ports.Get(pin.port);
    if val == 0 {
      mcu.WritePort(pin.port, ClearBit(v, pin.bit));
    } else {
      mcu.WritePort(pin.port, SetBit(v, pin.bit));
    }
  }
}
