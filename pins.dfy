/** The pin map of the board (inc/pins.h) and single-bit updates of the 8-bit
    AVR port registers. */
module Pins {

  /** The two I/O ports the firmware drives. */
  datatype Port = PortB | PortD

  /** Bit position inside an 8-bit port register. */
  type BitIndex = k: nat | k < 8

  /** A pin: a port and a bit of it. */
  datatype Pin = Pin(port: Port, bit: BitIndex)

  // SPI pins
  const SPI_MOSI: Pin := Pin(PortB, 2)
  const SPI_SCK: Pin := Pin(PortB, 1)
  /** The AVR's own !SS pin, which must stay an output driven high in master mode. */
  const SPI_SS: Pin := Pin(PortB, 0)

  // Chip-select lines, one per SPI peripheral; low means selected.
  const SPI_SD_CS: Pin := Pin(PortB, 3)
  const SPI_DISP_CS: Pin := Pin(PortD, 6)
  const SPI_BME280_CS: Pin := Pin(PortB, 5)

  // SSD1306 display control lines
  const DISP_RES: Pin := Pin(PortB, 4)
  const DISP_DC: Pin := Pin(PortD, 7)

  // Status LED
  const LED_STAT: Pin := Pin(PortD, 4)

  /** The chip-select lines named in the pin map. */
  const CS_PINS: set<Pin> := {SPI_SD_CS, SPI_DISP_CS, SPI_BME280_CS}

  /** `0x01 << k` */
  function Mask(k: BitIndex): bv8
  {
    (1 as bv8) << k
  }

  /** Bit k of v is one. */
  predicate Bit(v: bv8, k: BitIndex)
  {
    v & Mask(k) != 0
  }

  /** `v | (0x01 << k)`: drives bit k high and keeps every other bit. */
  function SetBit(v: bv8, k: BitIndex): (r: bv8)
    ensures Bit(r, k)
    ensures forall j: BitIndex :: j != k ==> (Bit(r, j) <==> Bit(v, j))
  {
    v | Mask(k)
  }

  /** `v & ~(0x01 << k)`: drives bit k low and keeps every other bit. */
  function ClearBit(v: bv8, k: BitIndex): (r: bv8)
    ensures !Bit(r, k)
    ensures forall j: BitIndex :: j != k ==> (Bit(r, j) <==> Bit(v, j))
  {
    v & !Mask(k)
  }

  /** Two port values that agree on all eight bits are equal. */
  lemma BitsDetermine(a: bv8, b: bv8)
    requires forall j: BitIndex :: Bit(a, j) <==> Bit(b, j)
    ensures a == b
  {
    assert Bit(a, 0) <==> Bit(b, 0);
    assert Bit(a, 1) <==> Bit(b, 1);
    assert Bit(a, 2) <==> Bit(b, 2);
    assert Bit(a, 3) <==> Bit(b, 3);
    assert Bit(a, 4) <==> Bit(b, 4);
    assert Bit(a, 5) <==> Bit(b, 5);
    assert Bit(a, 6) <==> Bit(b, 6);
    assert Bit(a, 7) <==> Bit(b, 7);
  }

  /** Asserting a line and then deasserting it is the same as deasserting it;
      in particular the port is left exactly as it was whenever the line was
      high (deasserted) to begin with. */
  lemma ClearThenSet(v: bv8, k: BitIndex)
    ensures SetBit(ClearBit(v, k), k) == SetBit(v, k)
    ensures Bit(v, k) ==> SetBit(ClearBit(v, k), k) == v
  {
    BitsDetermine(SetBit(ClearBit(v, k), k), SetBit(v, k));
    if Bit(v, k) {
      BitsDetermine(SetBit(v, k), v);
    }
  }

  /** The value of both output ports. */
  datatype Ports = Ports(b: bv8, d: bv8)
  {
    function Get(p: Port): bv8
    {
      if p == PortB then b else d
    }

    /** The ports after writing v to port p. */
    function With(p: Port, v: bv8): (r: Ports)
      ensures r.Get(p) == v
      ensures forall q: Port :: q != p ==> r.Get(q) == Get(q)
    {
      if p == PortB then Ports(v, d) else Ports(b, v)
    }
  }

  /** Pin `pin` is driven high. */
  predicate High(ps: Ports, pin: Pin)
  {
    Bit(ps.Get(pin.port), pin.bit)
  }

  /** The ports after `PORT |= (0x01 << PIN)` for `pin`. */
  function Raise(ps: Ports, pin: Pin): (r: Ports)
    ensures High(r, pin)
    ensures forall q: Pin :: q != pin ==> (High(r, q) <==> High(ps, q))
  {
    ps.With(pin.port, SetBit(ps.Get(pin.port), pin.bit))
  }

  /** The ports after `PORT &= ~(0x01 << PIN)` for `pin`. */
  function Lower(ps: Ports, pin: Pin): (r: Ports)
    ensures !High(r, pin)
    ensures forall q: Pin :: q != pin ==> (High(r, q) <==> High(ps, q))
  {
    ps.With(pin.port, ClearBit(ps.Get(pin.port), pin.bit))
  }

  /** No chip-select line is asserted. */
  predicate Idle(ps: Ports)
  {
    forall q :: q in CS_PINS ==> High(ps, q)
  }

  /** The shared-bus rule: at most one chip-select line is low at a time. */
  predicate AtMostOneSelected(ps: Ports)
  {
    forall q1, q2 :: q1 in CS_PINS && q2 in CS_PINS && !High(ps, q1) && !High(ps, q2) ==> q1 == q2
  }

  /** Two port states in which every pin has the same level are the same. */
  lemma LevelsDetermine(a: Ports, b: Ports)
    requires forall q: Pin :: High(a, q) <==> High(b, q)
    ensures a == b
  {
    forall j: BitIndex
      ensures Bit(a.b, j) <==> Bit(b.b, j)
    {
      assert High(a, Pin(PortB, j)) <==> High(b, Pin(PortB, j));
    }
    forall j: BitIndex
      ensures Bit(a.d, j) <==> Bit(b.d, j)
    {
      assert High(a, Pin(PortD, j)) <==> High(b, Pin(PortD, j));
    }
    BitsDetermine(a.b, b.b);
    BitsDetermine(a.d, b.d);
  }

  /** Lowering a line and raising it again is the same as raising it. */
  lemma LowerThenRaise(ps: Ports, pin: Pin)
    ensures Raise(Lower(ps, pin), pin) == Raise(ps, pin)
  {
    ClearThenSet(ps.Get(pin.port), pin.bit);
  }
}
