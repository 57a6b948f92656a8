/** The values the firmware exchanges with the vendor libraries it links
    against (the Bosch BME280 driver, the ICM20948 driver, u8g2 and the WS2812
    driver). Their code is not part of this model: each call into them is an
    event of the trace whose outcome the environment supplies (see Bus.Mcu). */
module Vendor {
  import opened Types

  /** BME280 oversampling settings (BME280_OVERSAMPLING_*). */
  datatype Oversampling = NoOversampling | Oversampling1x | Oversampling2x | Oversampling4x | Oversampling8x | Oversampling16x

  /** BME280 IIR filter coefficients (BME280_FILTER_COEFF_*). */
  datatype FilterCoeff = FilterOff | FilterCoeff2 | FilterCoeff4 | FilterCoeff8 | FilterCoeff16

  /** BME280 power modes (BME280_*_MODE). */
  datatype SensorMode = SleepMode | ForcedMode | NormalMode

  /** Selector bits of bme280_set_sensor_settings (BME280_*_SEL). */
  datatype SettingSel = OsrPressSel | OsrTempSel | OsrHumSel | FilterSel | StandbySel

  /** The settings fields of the BME280 device structure that the firmware writes. */
  datatype Bme280Settings = Bme280Settings(osrH: Oversampling, osrP: Oversampling, osrT: Oversampling, filter: FilterCoeff)

  /** Compensated BME280 reading (struct bme280_data), in the sensor's native scale. */
  datatype ClimateSample = ClimateSample(temperature: i32, pressure: u32, humidity: u32)

  /** ICM20948 gyroscope reading (icm20948_gyro_t). */
  datatype GyroSample = GyroSample(x: i16, y: i16, z: i16)

  /** One WS2812 pixel (ws2812_RGB_t): its three colour bytes in declaration order. */
  datatype Pixel = Pixel(c0: u8, c1: u8, c2: u8)

  /** A call from the firmware into a vendor library, with the arguments the
      firmware chose. */
  datatype Call =
    | Bme280Init
    | Bme280SetSensorSettings(sel: set<SettingSel>, settings: Bme280Settings)
    | Bme280CalMeasDelay(settings: Bme280Settings)
    | Bme280SetSensorMode(mode: SensorMode)
    | Bme280GetSensorData
    | Icm20948Init
    | Icm20948ApplySettings(gyroEnabled: bool)
    | Icm20948GetGyroData
    | Ws2812SetLeds(pixels: seq<Pixel>)

  /** What a vendor call hands back: its status code, the value of
      bme280_cal_meas_delay, and what it stores into the sample structure the
      firmware passed by pointer (None: it leaves the structure as it was). */
  datatype Reply = Reply(status: i8, delay: u32, climate: Option<ClimateSample>, gyro: Option<GyroSample>)

  /** What a vendor call leaves in the sample structure it was handed. */
  function Stored<T>(previous: T, written: Option<T>): T
  {
    if written.Some? then written.value else previous
  }
}
