/** The BME280 climate sensor adapter (src/climate.c): the SPI read, write
    and delay callbacks handed to the Bosch driver, and the initialisation
    and sampling sequences built on that driver. */
module Climate {
  import opened Types
  import opened Pins
  import opened Bus
  import opened Vendor
  import Spi

  /** Bosch driver status codes (bme280_defs.h). */
  const BME280_OK: i8 := 0
  const BME280_E_NULL_PTR: i8 := -1

  /** The settings climate_init applies: humidity 1x, pressure 16x and
      temperature 2x oversampling, IIR filter coefficient 16. */
  const CLIMATE_SETTINGS: Bme280Settings :=
    Bme280Settings(Oversampling1x, Oversampling16x, Oversampling2x, FilterCoeff16)

  /** settings_sel: pressure, temperature and humidity oversampling and filter. */
  const SETTINGS_SEL: set<SettingSel> := {OsrPressSel, OsrTempSel, OsrHumSel, FilterSel}

  /** The global climate_info. */
  class ClimateInfo {
    /** dev.intf is BME280_SPI_INTF and the three adapter callbacks are installed. */
    var spiInterface: bool
    /** dev.settings (the fields the firmware writes). */
    var settings: Bme280Settings
    /** req_delay: the measurement delay in microseconds. */
    var reqDelay: u32
    /** comp_data: the last compensated reading. */
    var compData: ClimateSample

    /** `str_climate_t climate_info = {0}` */
    constructor ()
      ensures !spiInterface && reqDelay == 0 && compData == ClimateSample(0, 0, 0)
      ensures settings == Bme280Settings(NoOversampling, NoOversampling, NoOversampling, FilterOff)
    {
      spiInterface := false;
      settings := Bme280Settings(NoOversampling, NoOversampling, NoOversampling, FilterOff);
      reqDelay := 0;
      compData := ClimateSample(0, 0, 0);
    }
  }

  /** user_spi_write: a NULL data pointer is refused without touching the bus.
      Otherwise a register write on the BME280 chip select: the line goes low,
      the address and the data (its length cut to 8 bits, as spi_write takes
      it) go out, and the line goes high again; only that bit of PORTB changes. */
  method UserSpiWrite(mcu: Mcu, regAddr: u8, data: array?<u8>, len: u32) returns (r: i8)
    requires data != null ==> ToU8(len) <= data.Length
    modifies mcu`ports, mcu`trace
    ensures data == null ==>
      r == BME280_E_NULL_PTR && mcu.ports == old(mcu.ports) && mcu.trace == old(mcu.trace)
    ensures data != null ==>
      && r == BME280_OK
      && mcu.ports == Raise(old(mcu.ports), SPI_BME280_CS)
      && mcu.trace == old(mcu.trace) + RegisterWrite(SPI_BME280_CS, old(mcu.ports), regAddr, data[..ToU8(len)])
  {
    if data == null {
      return BME280_E_NULL_PTR;
    }
    var cs := SPI_BME280_CS;
    mcu.WritePort(cs.port, ClearBit(mcu.ports.Get(cs.port), cs.bit));
    var addr := new u8[1](_ => regAddr);
    var _ := Spi.Write(mcu, addr, 1);
    assert addr[..1] == [regAddr];
    var _ := Spi.Write(mcu, data, ToU8(len));
    LowerThenRaise(old(mcu.ports), cs);
    RegisterWriteUnfolds(old(mcu.trace), cs, old(mcu.ports), regAddr, data[..ToU8(len)]);
    mcu.WritePort(cs.port, SetBit(mcu.ports.Get(cs.port), cs.bit));
    return BME280_OK;
  }

  /** user_spi_read: a NULL data pointer is refused without touching the bus.
      Otherwise a register read on the BME280 chip select: the address goes
      out, then spi_read fills data[n] down to data[1] (n being the length cut
      to 8 bits) and leaves data[0] alone, all while the line is low; then the
      line goes high again. */
  method UserSpiRead(mcu: Mcu, regAddr: u8, data: array?<u8>, len: u32) returns (r: i8)
    requires data != null && ToU8(len) != 0 ==> ToU8(len) < data.Length
    modifies data, mcu`ports, mcu`trace, mcu`received
    ensures data == null ==>
      && r == BME280_E_NULL_PTR && mcu.ports == old(mcu.ports)
      && mcu.trace == old(mcu.trace) && mcu.received == old(mcu.received)
    ensures data != null ==>
      && r == BME280_OK
      && mcu.ports == Raise(old(mcu.ports), SPI_BME280_CS)
      && mcu.received == old(mcu.received) + ToU8(len)
      && mcu.trace == old(mcu.trace)
           + RegisterRead(SPI_BME280_CS, old(mcu.ports), regAddr, mcu.miso, old(mcu.received), ToU8(len))
      && (forall j :: 1 <= j <= ToU8(len) ==> data[j] == mcu.miso(old(mcu.received) + (ToU8(len) - j)))
      && (forall j :: 0 <= j < data.Length && !(1 <= j <= ToU8(len)) ==> data[j] == old(data[j]))
  {
    if data == null {
      return BME280_E_NULL_PTR;
    }
    var cs := SPI_BME280_CS;
    mcu.WritePort(cs.port, ClearBit(mcu.ports.Get(cs.port), cs.bit));
    var addr := new u8[1](_ => regAddr);
    var _ := Spi.Write(mcu, addr, 1);
    assert addr[..1] == [regAddr];
    var _ := Spi.Read(mcu, data, ToU8(len));
    mcu.WritePort(cs.port, SetBit(mcu.ports.Get(cs.port), cs.bit));
    LowerThenRaise(old(mcu.ports), cs);
    RegisterReadUnfolds(old(mcu.trace), cs, old(mcu.ports), regAddr, mcu.miso, old(mcu.received), ToU8(len));
    return BME280_OK;
  }

  /** user_delay_us: `period` busy waits of one microsecond each. */
  method UserDelayUs(mcu: Mcu, period: u32)
    modifies mcu`trace
    ensures mcu.trace == old(mcu.trace) + Repeat(DelayUs(1), period)
  {
    var remaining := period;
    while remaining > 0
      invariant 0 <= remaining <= period
      invariant mcu.trace == old(mcu.trace) + Repeat(DelayUs(1), period - remaining)
    {
      mcu.DelayMicros(1);
      remaining := remaining - 1;
    }
  }

  /** One forced measurement as the adapter drives it: switch the sensor to
      forced mode, wait the measurement delay `d`, read the compensated data. */
  function Measurement(d: u32): seq<Event>
  {
    [Call(Bme280SetSensorMode(ForcedMode))] + Repeat(DelayUs(1), d) + [Call(Bme280GetSensorData)]
  }

  /** The calls and waits of a successful climate_init, one event at a time,
      regrouped as the configuration calls, one measurement and a final wait. */
  lemma InitTraceUnfolds(before: seq<Event>, d: u32)
    ensures before + [Call(Bme280Init)] + [Call(Bme280SetSensorSettings(SETTINGS_SEL, CLIMATE_SETTINGS))]
        + [Call(Bme280CalMeasDelay(CLIMATE_SETTINGS))] + [Call(Bme280SetSensorMode(ForcedMode))]
        + Repeat(DelayUs(1), d) + [Call(Bme280GetSensorData)] + Repeat(DelayUs(1), d)
      == before
        + [Call(Bme280Init),
           Call(Bme280SetSensorSettings(SETTINGS_SEL, CLIMATE_SETTINGS)),
           Call(Bme280CalMeasDelay(CLIMATE_SETTINGS))]
        + Measurement(d)
        + Repeat(DelayUs(1), d)
  {
  }

  /** climate_init: installs the SPI interface and calls bme280_init. If that
      fails its status is returned and nothing else happens. Otherwise the
      settings are written and applied, the measurement delay computed, one
      forced measurement triggered, waited out, read and waited out again;
      the status returned is that of bme280_get_sensor_data, the last call. */
  method ClimateInit(mcu: Mcu, info: ClimateInfo) returns (r: i8)
    modifies mcu`trace, mcu`calls, info
    ensures info.spiInterface
    ensures var k := old(mcu.calls);
      Answer(mcu.vendor, k).status != BME280_OK ==>
        && r == Answer(mcu.vendor, k).status
        && mcu.calls == k + 1
        && mcu.trace == old(mcu.trace) + [Call(Bme280Init)]
        && info.settings == old(info.settings) && info.reqDelay == old(info.reqDelay)
        && info.compData == old(info.compData)
    ensures var k := old(mcu.calls);
      Answer(mcu.vendor, k).status == BME280_OK ==>
        && r == Answer(mcu.vendor, k + 4).status
        && mcu.calls == k + 5
        && info.settings == CLIMATE_SETTINGS
        && info.reqDelay == Answer(mcu.vendor, k + 2).delay
        && info.compData == Stored(old(info.compData), Answer(mcu.vendor, k + 4).climate)
        && mcu.trace == old(mcu.trace)
             + [Call(Bme280Init),
                Call(Bme280SetSensorSettings(SETTINGS_SEL, CLIMATE_SETTINGS)),
                Call(Bme280CalMeasDelay(CLIMATE_SETTINGS))]
             + Measurement(info.reqDelay)
             + Repeat(DelayUs(1), info.reqDelay)
  {
    ghost var k := mcu.calls;
    info.spiInterface := true;
    var reply := mcu.Invoke(Bme280Init);
    var rslt := reply.status;
    if rslt == BME280_OK {
      info.settings := info.settings.(osrH := Oversampling1x);
      info.settings := info.settings.(osrP := Oversampling16x);
      info.settings := info.settings.(osrT := Oversampling2x);
      info.settings := info.settings.(filter := FilterCoeff16);
      assert info.settings == CLIMATE_SETTINGS;
      reply := mcu.Invoke(Bme280SetSensorSettings(SETTINGS_SEL, info.settings));
      rslt := reply.status;
      reply := mcu.Invoke(Bme280CalMeasDelay(info.settings));
      assert reply == Answer(mcu.vendor, k + 2);
      info.reqDelay := reply.delay;
      reply := mcu.Invoke(Bme280SetSensorMode(ForcedMode));
      rslt := reply.status;
      UserDelayUs(mcu, info.reqDelay);
      reply := mcu.Invoke(Bme280GetSensorData);
      assert reply == Answer(mcu.vendor, k + 4);
      rslt := reply.status;
      info.compData := Stored(info.compData, reply.climate);
      UserDelayUs(mcu, info.reqDelay);
      InitTraceUnfolds(old(mcu.trace), info.reqDelay);
    }
    return rslt;
  }

  /** climate_getData: triggers a forced measurement, waits the measurement
      delay and reads the result. The status of the mode change is discarded:
      the one returned is that of bme280_get_sensor_data. It calls through
      dev.delay_us, which is NULL until climate_init has installed the
      adapters, so climate_init must have run first. */
  method ClimateGetData(mcu: Mcu, info: ClimateInfo) returns (r: i8)
    requires info.spiInterface
    modifies mcu`trace, mcu`calls, info`compData
    ensures var k := old(mcu.calls);
      && r == Answer(mcu.vendor, k + 1).status
      && mcu.calls == k + 2
      && info.compData == Stored(old(info.compData), Answer(mcu.vendor, k + 1).climate)
      && mcu.trace == old(mcu.trace) + Measurement(info.reqDelay)
  {
    var reply := mcu.Invoke(Bme280SetSensorMode(ForcedMode));
    var rslt := reply.status;
    UserDelayUs(mcu, info.reqDelay);
    reply := mcu.Invoke(Bme280GetSensorData);
    rslt := reply.status;
    info.compData := Stored(info.compData, reply.climate);
    return rslt;
  }
}
