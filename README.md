# tiny-oled firmware core, modelled in Dafny

This project models the core of the tiny-oled firmware. The firmware runs on an
ATmega32U4 board that carries:

- an SSD1306 OLED display;
- a BME280 climate sensor;
- an ICM-20948 motion sensor;
- a WS2812 LED strip;
- a status LED.

The model covers these parts of the firmware:

- **System tick** (`src/tick.c`). A 32-bit counter that the Timer0 overflow
  interrupt advances by two milliseconds. It snaps back to zero just before it
  would overflow. `tick_timeSince` is a guarded subtraction built on it.
- **SPI layer** (`src/spi.c`, `inc/spi.h`). The master SPI set-up, the blocking
  byte writer and reader, and the chip-select primitive.
- **Sensor adapters** (`src/climate.c`, `src/telemetry.c`). These are the
  callbacks that bridge the Bosch and ICM-20948 driver libraries to the SPI bus
  (register write, register read, microsecond delay). It also covers the init
  and measurement sequences that call into those libraries.
- **Display callbacks** (`src/display.c`). These are the u8g2 GPIO/delay and
  byte callbacks that drive the display's chip select, reset and data/command
  lines and stream bytes over SPI.
- **Main loop** (`src/main.c`). The LED chase: a single lit pixel moves around
  an 8-pixel WS2812 strip, and the status LED blinks once per pass.

The microcontroller is the class `Bus.Mcu`. It holds:

- the PORTB/PORTD output latches;
- the data-direction registers;
- SPCR;
- a trace of observable events: bytes shifted out and in, port writes, busy-wait
  delays and calls into the vendor libraries.

Bytes arriving on MISO come from a fixed feed, and vendor library replies come
from a fixed stream of replies. Every method is therefore specified by the
exact events it appends and the state it leaves.

Chip-select discipline is stated on event sequences:

- `Bus.Transaction` is one select / body / deselect segment. Like
  `_set_cs_pin(1)`, the deselect raises the line on whatever port byte the
  body left, so a body may drive other lines of the same port.
- `Bus.Replay` folds port writes over a starting port state.
- `Bus.HoldsSelects` says a body never changes the level of a chip select.
  Sensor register transfers write no port at all. A display transfer drives
  DC (PORTD bit 7) between its select and deselect, and holds the selects too.

The lemmas about them prove these facts:

- the selected line stays low for the whole body;
- nothing else on the port changes;
- the line is high again afterwards;
- starting from an idle bus, no two chip selects are ever low together,
  for every body that holds the selects, display transfers included.

The bus is not idle at boot, though. `spi_init` drives only the SD card's
select high, so the BME280 and display selects start low (`Spi.BootSelects`).
The rule takes hold once each of those two devices has finished one
transaction (`Spi.SelectsSettle`), the display's with its DC write.

## Model

| member | source | states |
|---|---|---|
| Types.ToU8 | src/climate.c:29 | The uint32 length passed where spi_write takes a uint8 is reduced modulo 256. It is unchanged exactly when it is below 256, and zero exactly when it is a multiple of 256. |
| Pins.SetBit | src/climate.c:32 | `v \| (1 << k)` sets bit k and leaves the other seven bits unchanged. |
| Pins.ClearBit | src/climate.c:24 | `v & ~(1 << k)` clears bit k and leaves the other seven bits unchanged. |
| Pins.ClearThenSet | src/climate.c:23-32 | Asserting and then releasing a chip select gives the same port byte as a plain set. If the pin was high, the port byte comes back exactly as before. |
| Pins.LowerThenRaise | src/climate.c:23-32 | Lowering and then raising a pin gives the same ports as raising it alone. |
| Bus.Mcu.WritePort | src/climate.c:24 | A port write replaces that port's latch, leaves the other port alone and records the write. |
| Bus.Mcu.Transmit | src/spi.c:63-69 | Loading SPDR and waiting for SPIF shifts exactly that byte out and records it. |
| Bus.Mcu.Receive | src/spi.c:84-88 | Reading SPDR yields the next value of the SPDR feed and advances the feed. |
| Bus.Mcu.DelayMicros | src/climate.c:60-66 | A microsecond busy-wait is recorded with its length. |
| Bus.Mcu.DelayMillis | src/main.c:67 | A millisecond busy-wait is recorded with its length. |
| Bus.Mcu.Invoke | src/climate.c:79 | A vendor library call is recorded and answered by the next reply of the reply stream. |
| Bus.SentBytes | src/spi.c:63-70 | The bytes written go out on MOSI in order, with nothing read and no port written. |
| Bus.ReceivedBytes | src/spi.c:84-89 | n reads take the next n feed bytes in order, with nothing sent and no port written. |
| Bus.SentAppend | src/spi.c:63-70 | Sending two byte strings one after the other gives the same events as sending their concatenation. |
| Bus.ReceivedNext | src/spi.c:84-89 | One more read appends exactly the next feed byte. |
| Bus.ReceivedAreReads | src/spi.c:84-89 | Every event of a read burst is a MISO byte, and the k-th is the (from+k)-th feed byte. |
| Bus.BusOutAppend | src/spi.c:63-70 | The bytes sent by a concatenation are the bytes sent by its parts, in order. |
| Bus.BusInAppend | src/spi.c:84-89 | The bytes received by a concatenation are the bytes received by its parts, in order. |
| Bus.ReplayAppend | inc/pins.h:43-55 | Replaying two event segments one after the other gives the same port state as replaying their concatenation. |
| Bus.ReplayQuiet | inc/pins.h:43-55 | Events that write no port leave the port state unchanged. |
| Bus.ReplayAfterSelect | src/climate.c:23-24 | After the select write of a transaction, the ports equal the old ports with that pin lowered. |
| Bus.TransactionSelects | src/climate.c:23-32 | The chip select is low throughout the body of a transaction whose body writes no port, and only that bit has changed. |
| Bus.QuietTransaction | src/climate.c:23-32 | When the body writes no port, the deselect write restores the port byte as it was before the select, with the line high. |
| Bus.RegisterWriteUnfolds | src/climate.c:23-32 | A register write is, event by event, the select write, the address byte, the data bytes and a deselect that sets only the select bit of the old port byte. |
| Bus.RegisterReadUnfolds | src/climate.c:45-55 | A register read is, event by event, the select write, the address byte, n feed bytes and a deselect that sets only the select bit of the old port byte. |
| Bus.TransactionEnds | src/climate.c:23-32 | At the end of a transaction whose body writes no port, the ports equal the old ports with that pin raised. The bytes sent and received are exactly those of the body. |
| Bus.QuietHolds | src/climate.c:23-32 | A body that writes no port holds every chip select at its level throughout. |
| Bus.TransactionHoldsDuring | src/display.c:38-47 | For a body that holds the selects, every select keeps the level it has right after the select write, after the select write and after every event of the body. |
| Bus.TransactionFinal | src/display.c:38-47 | After a whole transaction the ports are those the body left, with the pin raised: the deselect is a read-modify-write of the current port byte. |
| Bus.TransactionHoldsAfter | src/display.c:38-47 | After a transaction whose body holds the selects, every select has the level it has in the starting ports with the pin raised. |
| Bus.TransactionHolds | src/display.c:38-47 | Both of the above: during the body every select has its level with the pin lowered, and afterwards its level with the pin raised. |
| Bus.TransactionExclusive | inc/pins.h:43-55 | Starting from an idle bus (every chip select high), a transaction on one chip select whose body holds the selects never has two selects low together, and the bus is idle afterwards. When the body writes no port, the ports are also exactly as before. |
| Bus.RegisterWriteShape | src/climate.c:15-35 | A register write sends the register address and then the data bytes, reads nothing, and holds the select low for all of them. |
| Bus.RegisterReadShape | src/climate.c:37-58 | A register read sends only the register address and then clocks in n feed bytes, all under the select. |
| Tick.Elapsed | src/tick.c:66-76 | Zero when the reference is later than the current tick. Otherwise tick minus reference, which never exceeds the tick. |
| Tick.NextTick | src/tick.c:81-88 | The ISR adds TICK_PERIOD, snapping to zero first at UINT32_MAX-2 or above. The result never overflows, lies in TICK_PERIOD..UINT32_MAX-1 and keeps an even counter even. |
| Tick.StepsStayEven | src/tick.c:37 | From an even start such as the initial 0, the counter is even after any number of interrupts, and within TICK_PERIOD..UINT32_MAX-1 after at least one. |
| Tick.ElapsedAfterSteps | src/tick.c:66-88 | Without a snap, k interrupts add exactly 2k, and tick_timeSince from the start value reports exactly 2k. |
| Tick.WrapPoint | src/tick.c:83-87 | From boot, the counter reaches UINT32_MAX-1 after 2^31-1 interrupts and becomes TICK_PERIOD (not 0) at the next one. |
| Tick.ElapsedAcrossSnap | src/tick.c:70-71 | At the actual wrap, the tick read after it is below the reference taken just before it, so tick_timeSince reports 0 although one period passed. |
| Tick.TickCounter.constructor | src/tick.c:37 | tick_val starts at 0. |
| Tick.TickCounter.GetTick | src/tick.c:59-61 | Returns the current counter. |
| Tick.TickCounter.TimeSince | src/tick.c:66-76 | Returns Elapsed(tick, ref), so 0 when ref is the current tick. |
| Tick.TickCounter.OnTimerOverflow | src/tick.c:81-88 | The counter becomes NextTick of its old value and stays even and in TICK_PERIOD..UINT32_MAX-1. |
| Spi.Init | src/spi.c:32-50 | MOSI, SCK, !SS and the SD select become outputs. !SS and the SD select are driven high. SPE and MSTR are set in SPCR. No other bit changes. |
| Spi.Write | src/spi.c:52-73 | Refuses a zero length or NULL buffer with EXIT_FAILURE and sends nothing. Otherwise it sends buf[0..len) in order and returns EXIT_SUCCESS. |
| Spi.Read | src/spi.c:75-92 | Refuses a zero length or NULL buffer with EXIT_FAILURE and changes nothing. Otherwise it clocks in len feed bytes and stores them from buf[len] down to buf[1]. buf[0] and bytes past len are untouched. |
| Spi.BootSelects | src/spi.c:41-46 | From reset, spi_init leaves the SD select high but the BME280 and display selects low, so the bus is neither idle nor within the one-select rule. Neither of those two lines is made an output. |
| Spi.SelectsSettle | inc/pins.h:43-55 | From any state with the SD select high, one BME280 transaction followed by one display transaction leaves every select high, which is where TransactionExclusive applies. The display body may drive other lines, such as DC, as long as it holds the selects. |
| Spi.AssertCS | inc/spi.h:60-70 | Drives the given pin low for 0 and high otherwise, records the port write and changes no other bit. |
| Climate.ClimateInfo.constructor | src/climate.c:13 | The BME280 device record starts zeroed. |
| Climate.UserSpiWrite | src/climate.c:15-35 | NULL data gives BME280_E_NULL_PTR with nothing done. Otherwise it emits exactly one register-write transaction on the BME280 select (address, then the first len mod 256 data bytes), leaves the select high and returns BME280_OK. |
| Climate.UserSpiRead | src/climate.c:37-58 | NULL data gives BME280_E_NULL_PTR with nothing done. Otherwise it emits exactly one register-read transaction on the BME280 select and fills data[1..n] with the feed bytes (last byte first). Other bytes are untouched. It returns BME280_OK. |
| Climate.UserDelayUs | src/climate.c:60-66 | Busy-waits exactly `period` one-microsecond delays. |
| Climate.ClimateInit | src/climate.c:68-103 | A failed bme280_init is returned at once and nothing else happens. Otherwise the settings are applied (osr_h 1x, osr_p 16x, osr_t 2x, filter 16), the measurement delay is asked for, one forced measurement is taken and read back, and the firmware waits the delay once more. The status returned is the data read's. |
| Climate.ClimateGetData | src/climate.c:105-113 | Requires that climate_init has installed the adapters, since the call goes through dev.delay_us. Exactly one forced measurement: set forced mode, wait req_delay microseconds, read the compensated data, return its status. |
| Telemetry.GyroData.constructor | src/telemetry.c:32 | The gyro sample starts zeroed. |
| Telemetry.UsrWrite | src/telemetry.c:34-54 | NULL data gives ICM20948_RET_NULL_PTR with nothing done. Otherwise it emits a register-write transaction on the sensor's select and returns ICM20948_RET_OK. |
| Telemetry.UsrRead | src/telemetry.c:56-75 | NULL data gives ICM20948_RET_NULL_PTR with nothing done. Otherwise it emits a register-read transaction on the sensor's select, fills data[1..n] and returns ICM20948_RET_OK. |
| Telemetry.UsrDelayUs | src/telemetry.c:77-82 | Busy-waits exactly `period` one-microsecond delays. |
| Telemetry.TelemetryInit | src/telemetry.c:84-96 | Applies the gyro-enabled settings only after a successful icm20948_init, and returns the status of the last call made. |
| Telemetry.TelemetryGetData | src/telemetry.c:98-100 | One gyro read. Its status is returned and a sample it delivers is stored. |
| Display.Level | src/display.c:38-69 | Writing val to a pin leaves it high exactly when val is non-zero and leaves every other pin unchanged. |
| Display.SetCsPin | src/display.c:38-47 | Sets the display chip select to Level(val) and records the port write. |
| Display.SetResPin | src/display.c:49-58 | Sets the display reset line to Level(val) and records the port write. |
| Display.SetDcPin | src/display.c:60-69 | Sets the data/command line to Level(val) and records the port write. |
| Display.GpioAndDelay | src/display.c:71-91 | Always answers 1. GPIO_AND_DELAY_INIT waits 1 ms, DELAY_MILLI waits arg_int milliseconds, GPIO_DC and GPIO_RESET set their lines, and any other message changes nothing. |
| Display.ByteCallback | src/display.c:93-117 | SEND streams arg_int bytes from arg_ptr, or nothing for NULL. SET_DC sets the data/command line to Level(arg_int). START_TRANSFER lowers and END_TRANSFER raises the display select. SEND, SET_DC and START answer 1; END_TRANSFER and unknown messages answer 0. |
| Display.TransferSession | src/display.c:93-117 | START, SET_DC, SEND and END driven in u8g2's order append exactly SessionEvents, and leave the display deselected with DC at Level(dc). |
| Display.SessionBodyReplay | src/display.c:60-69 | Inside a display transfer, from the DC write on, the ports are the selected ports with DC at its new level. |
| Display.SessionIsTransaction | src/display.c:93-117 | A display transfer is a chip-select transaction on the display select whose body is the DC write followed by the data bytes. |
| Display.SessionHoldsSelects | src/display.c:60-69 | The body of a display transfer writes a port (it is not quiet), yet never changes the level of any chip select, because DC is not one. |
| Display.SessionExclusive | src/display.c:93-117 | From an idle bus, a display transfer never has two selects low together and leaves the bus idle. |
| Chase.NextPosition | src/main.c:50-53 | The uint8 increment followed by the reset above 7: positions 0..6 advance by one, and 7 (or any larger value) goes to 0. The result is always in 0..7. |
| Chase.CountStep | src/main.c:50-53 | Counting one more step modulo 8 wraps 7 to 0 and otherwise adds one, as the uint8 increment followed by the reset above 7 does. |
| Chase.AdvanceCycles | src/main.c:49-53 | From a position in 0..7, n passes move the lit pixel to (x + n) mod 8. |
| Chase.Strip | src/main.c:55-62 | The frame always has PIXEL_NUM pixels. |
| Chase.StripHasOneLit | src/main.c:55-62 | The pixel at the position is lit, and no other pixel is. |
| Chase.Blink | src/main.c:65-69 | Switching the LED on and then off leaves the LED line low and every other line at its level. |
| Chase.BlinkSettles | src/main.c:65-69 | A second blink from the state a blink leaves changes nothing, so every pass after the first starts on the same ports. |
| Chase.RunFrames | src/main.c:49-72 | n passes give 5n events, and the i-th pass sends the frame with pixel (x + i + 1) mod 8 lit. |
| Chase.ChaseLoop.constructor | src/main.c:35-46 | x is 0, all pixels are dark, the SPI block is initialised and the status LED pin becomes an output. |
| Chase.ChaseLoop.Fill | src/main.c:55-62 | After the fill loop the pixel buffer is exactly Strip(x). |
| Chase.ChaseLoop.Pass | src/main.c:49-72 | One pass advances x by NextPosition and fills the strip. It sends that frame to ws2812_setleds, turns the status LED on, waits 250 ms, turns it off and waits 250 ms. The ports become Blink of the old ports, and the events are exactly that pass's segment. |
| Chase.ChaseLoop.Run | src/main.c:49-72 | After `passes` passes, x has moved `passes` places round the 8-pixel strip and the buffer shows exactly that position. One ws2812_setleds call is made per pass, and the events are the pass segments in order. After at least one pass the status LED is off, and every other line keeps its level. With no passes the pixel buffer is unchanged. |

## Left out

- Interrupt concurrency is not modelled. The ISR and `tick_getTick` / `tick_timeSince` are separate atomic steps, so a torn read of the 32-bit counter on the 8-bit CPU is not modelled.
- `tick_init` (`src/tick.c:42-54`) only configures Timer0 prescaler and interrupt registers. It is not modelled beyond the counter's initial value.
- Real time is not modelled. `_delay_us` / `_delay_ms` are recorded as delay events with their lengths, and the SPIF busy-wait is folded into a single transfer event.
- The vendor libraries (Bosch BME280, ICM-20948, u8g2, light_ws2812) are not part of this model. Their calls are recorded, and their results come from a fixed stream of replies. The SPI traffic they generate through the adapters is therefore not part of the traces of `ClimateInit` and friends. `Bus.Mcu.Invoke` leaves the ports untouched. The model therefore does not capture that `ws2812_setleds` bit-bangs PORTB bit 6, or that the sensor libraries toggle their selects through the adapters. The claim that a chase pass changes no port bit but the LED's rests on this.
- Register bit positions (SPE, MSTR) and status-code values come from avr-libc and the vendor headers. Those headers are not part of this model, so the values are written out as constants.
- Telemetry.UsrWrite: the chip select is a parameter, because the `SPI_ICM20948_CS_*` macros that `src/telemetry.c` uses are not defined in `inc/pins.h`.
- Telemetry.UsrRead: the chip select is a parameter, for the same reason as `UsrWrite`.
- Spi.AssertCS: the body of `spi_assertCS` is not part of this model. It is modelled from its documented behaviour (0 asserts the line low, anything else releases it).
- Spi.Read: it requires a buffer longer than `len`, because the firmware writes `buf[len]` down to `buf[1]`. A call with a buffer of exactly `len` bytes writes one byte past its end, which has no defined meaning to model.
- Spi.Read: every read of SPDR takes the next value of an environment feed. The model does not capture that on the AVR a read alone clocks no new byte (`spi_read` never writes SPDR), so on the hardware every copy would repeat the byte last shifted in.
- Climate.UserSpiRead: it requires a buffer longer than `len mod 256`, for the same reason as `Spi.Read`.
- Telemetry.UsrRead: it requires a buffer longer than `len mod 256`, for the same reason as `Spi.Read`.
- Display.ByteCallback: it requires `arg_int <= length of arg_ptr` for SEND. Reading past the buffer has no defined meaning to model.
- Telemetry.TelemetryInit: the fields of the local settings struct that the firmware leaves uninitialised are not modelled. Only `gyro_en = true` is passed.
- The status returned by `ws2812_setleds` is ignored by the firmware and is not used by the model either.
- Chase.ChaseLoop.Run: `main()` loops forever. The model runs a given number of passes instead.
- `display_init` (`src/display.c:119-140`) configures u8g2 and draws a frame inside the library. It is not modelled beyond the callbacks it installs.
- `src/uart.c`, the USB stack and the SD-card file system glue are not part of this model.
- Screen switching and button handling do not appear in `src/main.c`, which only runs the LED chase. The model follows the code.
- No code makes the BME280 and display selects outputs or drives them high before their first transaction (see `Spi.BootSelects`). The one-select rule is therefore proved only from an idle bus, which `Spi.SelectsSettle` shows is reached once each device has finished one transaction.
- The one-select rule is proved for bodies that hold every chip select (`Bus.HoldsSelects`). It covers register transfers and display transfers with their DC write. A body that toggled another device's select in mid-transfer is outside it; no core code does that.
