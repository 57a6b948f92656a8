/** The ICM20948 motion sensor adapter (src/telemetry.c): the SPI read,
    write and delay callbacks handed to the ICM20948 driver, and the
    initialisation and sampling calls built on that driver.

    The chip-select macros SPI_ICM20948_CS_PORT and SPI_ICM20948_CS_PIN that
    the adapter uses are not defined in inc/pins.h, so the line is a
    parameter `cs` of the adapters here. */
module Telemetry {
  import opened Types
  import opened Pins
  import opened Bus
  import opened Vendor
  import Spi

  /** ICM20948 driver status codes (icm20948_return_code_t). */
  const ICM20948_RET_OK: i8 := 0
  const ICM20948_RET_NULL_PTR: i8 := -3

  /** The global gyro_data. */
  class GyroData {
    var sample: GyroSample

    constructor ()
      ensures sample == GyroSample(0, 0, 0)
    {
      sample := GyroSample(0, 0, 0);
    }
  }

  /** usr_write: a NULL data pointer is refused without touching the bus.
      Otherwise spi_assertCS(cs, 0) comes first and spi_assertCS(cs, 1) last,
      and in between the address and then the data (its length cut to 8 bits,
      as spi_write takes it) go out; only the bit of `cs` changes. */
  method UsrWrite(mcu: Mcu, cs: Pin, addr: u8, data: array?<u8>, len: u32) returns (r: i8)
    requires data != null ==> ToU8(len) <= data.Length
    modifies mcu`ports, mcu`trace
    ensures data == null ==>
      r == ICM20948_RET_NULL_PTR && mcu.ports == old(mcu.ports) && mcu.trace == old(mcu.trace)
    ensures data != null ==>
      && r == ICM20948_RET_OK
      && mcu.ports == Raise(old(mcu.ports), cs)
      && mcu.trace == old(mcu.trace) + RegisterWrite(cs, old(mcu.ports), addr, data[..ToU8(len)])
  {
    if data == null {
      return ICM20948_RET_NULL_PTR;
    }
    Spi.AssertCS(mcu, cs, 0);
    var a := new u8[1](_ => addr);
    var _ := Spi.Write(mcu, a, 1);
    assert a[..1] == [addr];
    var _ := Spi.Write(mcu, data, ToU8(len));
    LowerThenRaise(old(mcu.ports), cs);
    RegisterWriteUnfolds(old(mcu.trace), cs, old(mcu.ports), addr, data[..ToU8(len)]);
    Spi.AssertCS(mcu, cs, 1);
    return ICM20948_RET_OK;
  }

  /** usr_read: a NULL data pointer is refused without touching the bus.
      Otherwise, between spi_assertCS(cs, 0) and spi_assertCS(cs, 1), the
      address goes out and spi_read fills data[n] down to data[1] (n being the
      length cut to 8 bits), leaving data[0] alone. */
  method UsrRead(mcu: Mcu, cs: Pin, addr: u8, data: array?<u8>, len: u32) returns (r: i8)
    requires data != null && ToU8(len) != 0 ==> ToU8(len) < data.Length
    modifies data, mcu`ports, mcu`trace, mcu`received
    ensures data == null ==>
      && r == ICM20948_RET_NULL_PTR && mcu.ports == old(mcu.ports)
      && mcu.trace == old(mcu.trace) && mcu.received == old(mcu.received)
    ensures data != null ==>
      && r == ICM20948_RET_OK
      && mcu.ports == Raise(old(mcu.ports), cs)
      && mcu.received == old(mcu.received) + ToU8(len)
      && mcu.trace == old(mcu.trace)
           + RegisterRead(cs, old(mcu.ports), addr, mcu.miso, old(mcu.received), ToU8(len))
      && (forall j :: 1 <= j <= ToU8(len) ==> data[j] == mcu.miso(old(mcu.received) + (ToU8(len) - j)))
      && (forall j :: 0 <= j < data.Length && !(1 <= j <= ToU8(len)) ==> data[j] == old(data[j]))
  {
    if data == null {
      return ICM20948_RET_NULL_PTR;
    }
    Spi.AssertCS(mcu, cs, 0);
    var a := new u8[1](_ => addr);
    var _ := Spi.Write(mcu, a, 1);
    assert a[..1] == [addr];
    var _ := Spi.Read(mcu, data, ToU8(len));
    Spi.AssertCS(mcu, cs, 1);
    LowerThenRaise(old(mcu.ports), cs);
    RegisterReadUnfolds(old(mcu.trace), cs, old(mcu.ports), addr, mcu.miso, old(mcu.received), ToU8(len));
    return ICM20948_RET_OK;
  }

  /** usr_delay_us: `period` busy waits of one microsecond each. */
  method UsrDelayUs(mcu: Mcu, period: u32)
    modifies mcu`trace
    ensures mcu.trace == old(mcu.trace) + Repeat(DelayUs(1), period)
  {
    var remaining := period;
    while remaining > 0
      invariant 0 <= remaining <= period
      invariant mcu.trace == old(mcu.trace) + Repeat(DelayUs(1), period - remaining)
    {
      mcu.DelayMicros(1);
      remaining := remaining - 1;
    }
  }

  /** telemetry_init: icm20948_init with the three callbacks; only when it
      succeeds are the settings (gyroscope enabled) applied. The status
      returned is the last one obtained. */
  method TelemetryInit(mcu: Mcu) returns (r: i8)
    modifies mcu`trace, mcu`calls
    ensures var k := old(mcu.calls);
      Answer(mcu.vendor, k).status != ICM20948_RET_OK ==>
        r == Answer(mcu.vendor, k).status && mcu.calls == k + 1
        && mcu.trace == old(mcu.trace) + [Call(Icm20948Init)]
    ensures var k := old(mcu.calls);
      Answer(mcu.vendor, k).status == ICM20948_RET_OK ==>
        r == Answer(mcu.vendor, k + 1).status && mcu.calls == k + 2
        && mcu.trace == old(mcu.trace) + [Call(Icm20948Init), Call(Icm20948ApplySettings(true))]
  {
    var reply := mcu.Invoke(Icm20948Init);
    var ret := reply.status;
    if ret == ICM20948_RET_OK {
      reply := mcu.Invoke(Icm20948ApplySettings(true));
      ret := reply.status;
    }
    return ret;
  }

  /** telemetry_getData: exactly the status of icm20948_getGyroData, which
      fills gyro_data. */
  method TelemetryGetData(mcu: Mcu, gyro: GyroData) returns (r: i8)
    modifies mcu`trace, mcu`calls, gyro
    ensures var k := old(mcu.calls);
      && r == Answer(mcu.vendor, k).status && mcu.calls == k + 1
      && mcu.trace == old(mcu.trace) + [Call(Icm20948GetGyroData)]
      && gyro.sample == Stored(old(gyro.sample), Answer(mcu.vendor, k).gyro)
  {
    var reply := mcu.Invoke(Icm20948GetGyroData);
    gyro.sample := Stored(gyro.sample, reply.gyro);
    return reply.status;
  }
}
