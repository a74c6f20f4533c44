# VL6180X time-of-flight and ambient-light sensor driver, modelled in Dafny

This project models the core of the `vl6180x` Rust driver. The driver talks to an
ST VL6180X proximity and ambient-light sensor over I2C. The model covers:

- **Registers and I2C framing** (`registers.dfy`, `framing.dfy`, `bytes.dfy`).
  Each register is a named 16-bit address that goes on the wire big-endian.
  Reads and writes are framed as the driver frames them:
  - an 8-bit, 16-bit or 32-bit read: `write_read` with the address and a 1, 2 or 4 byte buffer;
  - a write: `write_read` with address and payload and a 1-byte buffer;
  - a write-only write: a plain `write`.
- **The bus** (`bus.dfy`, `driver.dfy`). The I2C peripheral is a `Bus` object that logs
  every transaction. It answers each one from a fixed script of replies (acknowledged
  with data, or not acknowledged). The driver object `Sensor` holds its mode, the bus and
  its `Config`. Every driver method is proved to append exactly the transactions that a
  pure specification function (an `Exchange`: the trace sent plus the result) prescribes
  for that script. Lemmas then state what each specification function means.
- **Configuration** (`config.dfy`). The `Config` object has its defaults and its
  validating setters, with their bounds and minimum periods.
- **Initialisation** (`init.rs` → `init.dfy`):
  - the private-register block;
  - the encoding of the configuration into register codes (inter-measurement codes,
    integration period, interrupt configuration, GPIO1 mode);
  - range scaling and the range-check-enables read-modify-write.
- **Device status** (`device_status.dfy`): model id and interrupt status reads, interrupt
  clears, the I2C address change, power off, the boot wait, and power-on-and-init.
- **Measurements** (`measurements.dfy`). The interrupt-status poll with its loop counter
  and timeout. The status-nibble check, the clearing of the interrupt and the value read,
  for both the current revision (`read_measurements.rs`) and the older read path in
  `mode.rs`.
- **Starting and stopping measurements** (`start_stop.dfy`): single and continuous starts,
  and the interleaved-mode timing check and enable/disable.
- **The mode state machine** (`modes.dfy`, `dynamic.dfy`, `type_state.dfy`):
  - the type-state API (ReadyMode, RangeContinuousMode, AmbientContinuousMode,
    InterleavedContinuousMode, PoweredOffMode), where a method consumes the driver and
    hands back one in the new mode;
  - the runtime-checked `DynamicMode`, whose `try_*` methods return `InvalidMethod`
    outside the modes they allow.

  Lemmas relate the two guards, and the transition function `Next`, to each other.

## Model

| member | source | states |
|---|---|---|
| Bytes.U16RoundTrip | src/i2c_interface.rs:28-34 | decoding the big-endian bytes of a 16-bit value gives the value back |
| Bytes.U16BytesRoundTrip | src/i2c_interface.rs:28-34 | encoding the value decoded from two bytes gives the same two bytes |
| Bytes.U32RoundTrip | src/i2c_interface.rs:42-48 | decoding the big-endian bytes of a 32-bit value gives the value back |
| Bytes.U32BytesRoundTrip | src/i2c_interface.rs:42-48 | encoding the value decoded from four bytes gives the same four bytes |
| Registers.AddrBytes | src/register.rs:87-90 | a register's address is two bytes |
| Registers.AddrBytesIsBigEndian | src/register.rs:87-90 | `addr()` is the big-endian encoding of the register address: high byte first, then low byte |
| Registers.AddrBytesRoundTrip | src/register.rs:87-90 | the two address bytes recombine into the register's address |
| Registers.AddrBound | src/register.rs:8-83 | every register address is at most 0x2A3, so its high byte is at most 2 |
| Registers.AddrInverse | src/register.rs:8-83 | each address decodes back to its own register (the address table has no duplicates) |
| Registers.AddrInjective | src/register.rs:8-83 | two registers with the same address are the same register |
| Framing.FramesRoundTrip | src/i2c_interface.rs:14-91 | each frame addresses the requested register on the requested device. Its payload is empty for a read, `[code]` for 8-bit writes, and the big-endian 16-bit or 32-bit code. The write-only frame sends the same bytes as the acknowledged write |
| Framing.Write8FrameInjective | src/i2c_interface.rs:68-74 | two 8-bit write frames to one device are equal only if register and code are equal |
| Framing.Write32AsWrittenTargetsZero | src/i2c_interface.rs:93-108 | the 32-bit write as written addresses register 0 whatever register is asked for. Its payload is still the code, so it differs from the intended frame for every non-zero register |
| Framing.Write32AsWrittenExample | src/i2c_interface.rs:101-108 | writing 7 to register 0x0212 sends `[0,0,0,0,0,7]` as written, instead of `[0x02,0x12,0,0,0,7]` |
| I2cBus.RunWritesOutcome | src/init.rs:18-49 | a chain of `?`-propagated writes sends a prefix of the planned frames. It succeeds iff every write is acknowledged, and then it sends all of them. Otherwise it stops at the first unacknowledged write with a bus error |
| I2cBus.RunWritesAppend | src/init.rs:18-49 | running two write chains back to back is the same as running their concatenation |
| Driver.ReadValuesAreBigEndian | src/i2c_interface.rs:28-48 | 16-bit and 32-bit reads return the big-endian value of the bytes received. Every read succeeds iff its transaction is acknowledged |
| Driver.RunWritesOne | src/i2c_interface.rs:68-74 | a chain of one write behaves as that single write |
| Driver.Sensor.ReadRegister | src/i2c_interface.rs:14-20 | sends one read frame for the register to the configured address; returns the first byte received, or a bus error |
| Driver.Sensor.ReadRegister16 | src/i2c_interface.rs:28-34 | sends one 2-byte read frame; returns the big-endian value, or a bus error |
| Driver.Sensor.ReadRegister32 | src/i2c_interface.rs:42-48 | sends one 4-byte read frame; returns the big-endian value, or a bus error |
| Driver.Sensor.WriteOnlyRegister | src/i2c_interface.rs:58-62 | sends one plain write of address and code |
| Driver.Sensor.WriteRegister | src/i2c_interface.rs:68-74 | sends one write_read of address and code |
| Driver.Sensor.WriteRegister16 | src/i2c_interface.rs:84-91 | sends one write_read of address and big-endian 16-bit code |
| Driver.Sensor.WriteRegister32AsWritten | src/i2c_interface.rs:93-108 | sends the as-written 32-bit frame, whose register bytes are zero |
| Driver.Sensor.WriteRegister32 | src/i2c_interface.rs:101-108 | sends address bytes and then the big-endian 32-bit code |
| Driver.Sensor.WriteRegisters | src/init.rs:18-49 | a `?` chain of writes appends the chain's trace to the bus log; on success the log grows by one frame per write |
| Status.FieldsRoundTrip | src/register/register_tests.rs:66-86 | the interrupt-status byte packs an error field (bits 7:6), an ambient field (5:3) and a range field (2:0), and each field reads back what was packed |
| Status.HasStatusOnlyReadsItsField | src/register/register_tests.rs:66-86 | whether a status code is present depends only on that code's own field of the byte |
| Status.NoEventsIffFieldZero | src/read_measurements.rs:19-22 | "no range events" holds iff bits 2:0 are zero, "no ambient events" iff bits 5:3 are zero, "no error" iff the byte is below 64 |
| Status.InterruptErrorTests | src/register/register_tests.rs:3-22 | 0b11_000_010 has an error and 0b00_001_001 has none |
| Status.InterruptAmbientTests | src/register/register_tests.rs:24-43 | 0b00_000_001 has no ambient event and 0b00_001_001 has one |
| Status.InterruptRangeTests | src/register/register_tests.rs:45-64 | 0b00_000_000 has no range event and 0b00_000_010 has one |
| Status.InterruptAmbientLevelTests | src/register/register_tests.rs:66-86 | 0b00_010_111 has a level-high ambient event and 0b10_001_111 a level-low one |
| Status.StatusNibble | src/read_measurements.rs:45 | the status byte shifted right by four is below 16 |
| Status.RangeStatusRoundTrip | src/read_measurements.rs:47-48 | `try_from` on a range status code's own number gives that code, and no other number gives it |
| Status.AmbientStatusRoundTrip | src/read_measurements.rs:113-114 | `try_from` on an ambient status code's own number gives that code, and no other number gives it |
| Status.UnknownNibbles | src/register/register_tests.rs:96-99 | a nibble is not a range status code iff it is 9 or 10, and not an ambient status code iff it is 3 or more |
| Status.RangeStatusTests | src/register/register_tests.rs:88-99 | 0b0110_0000 decodes to EarlyConvergenceEstimate and 0b1001_0000 to no code |
| Configuration.Defaults | src/config.rs:78-107 | the default configuration is valid: address 0x29, range scaling 1, io timeout 500, both interrupt modes NewSampleReady |
| Configuration.AmbientPeriodMinimum | src/config.rs:212-218 | the documented ambient minimum is at least 10 and satisfies integration × 1.1 ≤ minimum × 0.9. Above 10 it is the least such value |
| Configuration.RangePeriodMinimumExact | src/config.rs:124-139 | for multiples of 10, a range period passes the as-written minimum iff it is at least 10 and (convergence + 5) ≤ period × 0.9 |
| Configuration.AmbientPeriodMinimumGap | src/config.rs:228-230 | with integration period 17, the as-written minimum accepts 20 although 17 × 1.1 > 20 × 0.9. The documented minimum rejects 20 |
| Configuration.AmbientPeriodMinimumExact | src/config.rs:212-229 | a period passes the corrected minimum iff it is at least 10 and integration × 1.1 ≤ period × 0.9. The as-written minimum never exceeds the corrected one |
| Configuration.InterleavedMinimumIff | src/start_stop_measurements.rs:71-88 | a period passes the interleaved minimum iff 10(convergence + 5) + 11 × integration < 9 × period + 9 (the truncated form of the documented inequality) |
| Configuration.SetterContracts | src/config.rs:116-235 | each validating setter succeeds iff its documented bounds hold (2..63; multiple of 10 in [min, 2550]; 0..7; 1..256). On success only its own field changes. On failure it returns `InvalidConfigurationValue(value)` and changes nothing |
| Configuration.SettersKeepValid | src/config.rs:116-235 | every validating setter keeps the configuration valid (the invariant that initialisation relies on) |
| Configuration.AmbientSetterAsWrittenWrongField | src/config.rs:227-235 | the ambient inter-measurement setter as written never changes the ambient period. When it accepts, it overwrites the range period |
| Configuration.AmbientSetterAsWrittenExamples | src/config.rs:227-235 | on defaults, setting 1000 leaves the ambient period at 500 and sets the range period to 1000. Setting 2560 is accepted and leaves an invalid configuration. The corrected setter stores 1000 and rejects 2560 |
| Configuration.Config.New | src/config.rs:78-107 | a new configuration holds the defaults |
| Configuration.Config.Copy | src/mode/ready.rs:32-37 | a clone holds the same settings as the original |
| Configuration.Config.SetRangeMaxConvergenceTime | src/config.rs:116-122 | the new state and result are those of the validating update |
| Configuration.Config.SetRangeInterMeasurementPeriod | src/config.rs:136-144 | the new state and result are those of the validating update |
| Configuration.Config.SetReadoutAveragingPeriodMultiplier | src/config.rs:152-158 | always succeeds and sets only the multiplier |
| Configuration.Config.AmbientIntegrationPeriod | src/config.rs:165-167 | sets only the range VHV recalibration rate (the method's name notwithstanding) |
| Configuration.Config.SetAmbientAnalogueGainLevel | src/config.rs:189-195 | the new state and result are those of the validating update |
| Configuration.Config.SetAmbientIntegrationPeriod | src/config.rs:204-210 | the new state and result are those of the validating update |
| Configuration.Config.SetAmbientInterMeasurementPeriodAsWritten | src/config.rs:227-235 | the new state and result are those of the as-written update (bound 2560, stored into the range field) |
| Configuration.Config.SetAmbientInterMeasurementPeriod | src/config.rs:212-235 | the new state and result are those of the corrected update (bound 2550, stored into the ambient field) |
| Configuration.Config.SetRangeInterruptMode | src/config.rs:248-250 | sets only the range interrupt mode |
| Configuration.Config.SetAmbientInterruptMode | src/config.rs:263-265 | sets only the ambient interrupt mode |
| Init.InterMeasurementCode | src/init.rs:79-94 | for a valid period (a multiple of 10 in 10..2550) the register code c satisfies (c + 1) × 10 = period and c ≤ 254 |
| Init.InterMeasurementCodeAgrees | src/init.rs:79-94 | the u8 arithmetic as written gives the same code for every valid period. For 2560 it underflows (`0 - 1` on u8) |
| Init.AmbientSetterAsWrittenBreaksInit | src/init.rs:89-90 | the as-written setter accepts 2560 into the range period, which then underflows in the range inter-measurement code at init |
| Init.IntegrationCode | src/init.rs:76-77 | the integration code is the period minus one and fits the register (≤ 255) |
| Init.InterruptConfigIsOr | src/init.rs:113-114 | the interrupt configuration byte is the bitwise OR of the range and ambient mode codes |
| Init.InterruptConfigDecodes | src/init.rs:113-114 | the range mode is recoverable from bits 2:0 and the ambient mode from bits 5:3. The byte is zero iff both are Disabled; the defaults give 0x24 |
| Init.Gpio1ModeIsOr | src/init.rs:117-128 | GPIO1 is active-high with the interrupt output selected iff the interrupt configuration is non-zero, and active-high with the output off otherwise |
| Init.RangeCheckEnablesIsMask | src/init.rs:171-173 | the new range-check-enables byte keeps bits 7:1 of the value read, and bit 0 is set iff the scaling is 1 |
| Init.InitSettings | src/init.rs:14-16 | initialisation keeps a valid configuration valid (it only records the part-to-part offset read) |
| Init.RangeCheckOutcome | src/init.rs:171-173 | the read-modify-write succeeds iff both transactions are acknowledged. Then it is the read followed by the masked write of the value read |
| Init.SetRangeScalingOutcome | src/init.rs:150-176 | range scaling succeeds iff all five transactions are acknowledged. It sends the scaler code, the scaled offset and the scaled valid height, then the range-check read-modify-write |
| Init.SetConfigurationGroups | src/init.rs:58-109 | set_configuration is the configuration writes, then the six interrupt writes, then the two closing writes, then range scaling, each stopping the rest on error |
| Init.SetConfigurationOutcome | src/init.rs:58-109 | set_configuration succeeds iff 21 transactions are acknowledged. It then sends exactly the 16 encoded settings writes followed by range scaling |
| Init.SettingsWritesEncode | src/init.rs:58-104 | the writes carry the analogue-gain table entry, integration period − 1, the two inter-measurement codes, the interrupt byte and GPIO1 mode that decode back to the configured modes, and interleaved-mode disable |
| Init.InitHardwareOutcome | src/init.rs:14-54 | init_hardware first reads the part-to-part offset. It succeeds iff 53 transactions are acknowledged, and then sends the private-register block, the fresh-out-of-reset clear and set_configuration on the updated settings |
| Init.SetRangeScaling | src/init.rs:150-176 | appends exactly the range-scaling exchange to the bus log and returns its result |
| Init.SetInterrupts | src/init.rs:111-149 | appends the six interrupt writes (or the prefix up to the first failure) and returns their result |
| Init.SetConfiguration | src/init.rs:58-109 | appends exactly the set_configuration exchange and returns its result |
| Init.SendInitSequence | src/init.rs:18-51 | after the offset read, sends the 30 private-register writes and the fresh-out-of-reset clear, stopping at the first refused write, then set_configuration; the log grows by exactly that exchange and the result is its result |
| Init.InitHardware | src/init.rs:14-54 | appends exactly the init_hardware exchange. It stores the offset read and keeps the address and the configuration valid |
| DeviceStatus.ClearAllCodeIsOr | src/device_status.rs:40-47 | the clear-all code is the OR of the range, ambient and error clear codes, and it contains each of them |
| DeviceStatus.ClearOutcome | src/device_status.rs:49-51 | an interrupt clear is one write of the code to SYSTEM__INTERRUPT_CLEAR; it succeeds iff acknowledged |
| DeviceStatus.ChangeAddressOutcome | src/device_status.rs:53-61 | an address outside 0x08..0x77 gives `InvalidAddress` and sends nothing. Otherwise one write-only frame to I2C_SLAVE__DEVICE_ADDRESS is sent, which succeeds iff acknowledged |
| DeviceStatus.WaitBootedOutcome | src/device_status.rs:84-96 | the boot wait reads FRESH_OUT_OF_RESET until it reads 1, skipping bus errors. It ends at the first booted reply and succeeds |
| DeviceStatus.PowerOnSettings | src/device_status.rs:70-82 | power-on-and-init keeps a valid configuration valid |
| DeviceStatus.PowerOnAndInitOutcome | src/device_status.rs:70-82 | a pin failure gives `GpioPinError` and sends nothing. Otherwise the boot wait runs and then init_hardware, which succeeds iff its 53 transactions are acknowledged |
| DeviceStatus.ReadModelId | src/device_status.rs:15-18 | reads IDENTIFICATION__MODEL_ID |
| DeviceStatus.ReadInterruptStatus | src/device_status.rs:20-23 | reads RESULT__INTERRUPT_STATUS_GPIO |
| DeviceStatus.ClearInterrupt | src/device_status.rs:49-51 | appends the clear exchange for the code |
| DeviceStatus.ClearErrorInterrupt | src/device_status.rs:25-28 | appends the clear exchange for the error code |
| DeviceStatus.ClearAmbientInterrupt | src/device_status.rs:30-33 | appends the clear exchange for the ambient code |
| DeviceStatus.ClearRangeInterrupt | src/device_status.rs:35-38 | appends the clear exchange for the range code |
| DeviceStatus.ClearAllInterrupts | src/device_status.rs:40-47 | appends the clear exchange for the OR of all three codes |
| DeviceStatus.ChangeI2cAddress | src/device_status.rs:53-61 | appends the address-change exchange. The configured address becomes the new one iff it succeeds, and nothing else in the configuration changes |
| DeviceStatus.PowerOffDirect | src/device_status.rs:63-68 | requests the shutdown pin low once. The result is `GpioPinError` iff the pin fails, and the pin is low afterwards iff it was low or the request succeeded |
| DeviceStatus.WaitDeviceBooted | src/device_status.rs:84-96 | appends the boot-wait exchange and returns its result |
| DeviceStatus.PowerOnAndInitDirect | src/device_status.rs:70-82 | requests the pin high once. It appends the power-on-and-init exchange and keeps the address and the configuration valid |
| Measurements.PollShape | src/read_measurements.rs:17-27 | the poll sends only status reads, and every reply before the last one was still waiting. It succeeds iff the last reply is acknowledged and not waiting, and fails with a bus error iff the last reply is not acknowledged. It sends at most the remaining number of loops |
| Measurements.PollTimeoutIff | src/read_measurements.rs:17-27 | the poll times out iff every one of the remaining loops reads a waiting status, and it then sends exactly that many reads |
| Measurements.PollNoLimit | src/read_measurements.rs:17-27 | once the counter has passed the limit (a limit of 0), the poll never times out |
| Measurements.CheckStatusMeaning | src/read_measurements.rs:44-51 | the status check passes iff the nibble is 0. Unknown codes (range 9, 10; ambient ≥ 3) give `UnknownRegisterCode(nibble)`. Any other nibble gives the status error carrying the code with that number |
| Measurements.ConvertRawRangeToMm | src/read_measurements.rs:56-58 | the converted range is at least the raw value for scaling ≥ 1, and at most 765 for scaling ≤ 3 |
| Measurements.ValAndStatusOutcome | src/read_measurements.rs:44-54 | it reads the status, clears the channel's interrupt, and reads the value only if the nibble is 0. It succeeds iff all three are acknowledged and the nibble is 0. A non-zero nibble gives the status check's error. Range values are scaled, ambient values big-endian |
| Measurements.ReadDirectOutcome | src/read_measurements.rs:32-42 | `ResultNotReady` iff the status read shows no event, after exactly one read. Otherwise it is the status read followed by the value step |
| Measurements.ReadBlockingOutcome | src/read_measurements.rs:17-30 | it times out iff all `io_timeout` polls show no event, and then sends exactly that many status reads. Otherwise a successful poll is followed by the value step |
| Measurements.TypedAmbientOutcome | src/mode.rs:101-115 | the older ambient read reads RESULT__ALS_VAL and then clears the ambient interrupt. It succeeds iff both are acknowledged and returns the big-endian value |
| Measurements.ReadTypedOutcome | src/mode.rs:48-56 | the older non-blocking read returns `ResultNotReady` iff the status shows neither a new sample nor an error, after one read |
| Measurements.ReadBlockingTypedOutcome | src/mode.rs:28-43 | the older blocking read times out iff every one of `io_timeout` polls shows neither a new sample nor an error |
| Measurements.ReadStatus | src/read_measurements.rs:19-21 | sends one interrupt-status read and returns its byte |
| Measurements.PollStatus | src/read_measurements.rs:17-27 | the loop appends exactly the poll exchange and returns its result |
| Measurements.GetValAndStatus | src/read_measurements.rs:44-54 | appends exactly the value-and-status exchange |
| Measurements.ReadDirect | src/read_measurements.rs:32-42 | appends exactly the non-blocking read exchange |
| Measurements.ReadBlockingDirect | src/read_measurements.rs:17-30 | appends exactly the blocking read exchange |
| Measurements.GetTypedValue | src/mode.rs:58-70 | appends exactly the older value exchange |
| Measurements.ReadTyped | src/mode.rs:48-56 | only in modes that allow reading; appends exactly the older non-blocking read exchange |
| Measurements.ReadBlockingTyped | src/mode.rs:28-43 | only in modes that allow reading; appends the older blocking read exchange, and sets `did_timeout` iff it times out |
| StartStop.StartWrites | src/start_stop_measurements.rs:28-54 | a single start is one write of SingleStart, and a continuous toggle one write of ContinuousStartOrStop, to the channel's start register. Each succeeds iff acknowledged |
| StartStop.CheckConfigValidMeaning | src/start_stop_measurements.rs:78-88 | the interleaved check passes iff 10(c + 5) + 11g < 9p + 9. The documented inequality implies a pass, and a failure carries `InvalidConfigurationValue(p)` |
| StartStop.CheckConfigValidExamples | src/start_stop_measurements.rs:71-88 | convergence 2, integration 2, period 10 pass the check although the documented inequality fails. Every default configuration passes |
| StartStop.EnableInterleavedOutcome | src/start_stop_measurements.rs:57-69 | a failed check sends nothing and returns the check's error. Otherwise it succeeds iff both writes are acknowledged, sending the interleaved enable and then the ambient toggle |
| StartStop.EnableInterleavedTypedOutcome | src/mode/continuous.rs:93-109 | the type-state enable first toggles the ambient measurement, then runs the same enable. It succeeds iff the check passes and three writes are acknowledged |
| StartStop.StopInterleavedOutcome | src/start_stop_measurements.rs:91-96 | stopping is one write of the disable code to INTERLEAVED_MODE__ENABLE (the enable frame writes the enable code there) |
| StartStop.PollSingleOutcome | src/start_stop_measurements.rs:12-26 | a polled single measurement first writes the single start. A refused start ends there with a bus error. Otherwise the blocking read follows, and it times out iff every poll after the start shows no event |
| StartStop.StartSingleDirect | src/start_stop_measurements.rs:28-40 | appends exactly the single-start exchange |
| StartStop.ToggleContinuousDirect | src/start_stop_measurements.rs:42-54 | appends exactly the continuous-toggle exchange |
| StartStop.EnableInterleavedContinuousDirect | src/start_stop_measurements.rs:57-69 | appends exactly the interleaved-enable exchange |
| StartStop.StopInterleavedContinuousDirect | src/start_stop_measurements.rs:91-96 | appends exactly the interleaved-disable exchange |
| StartStop.PollSingleBlockingDirect | src/start_stop_measurements.rs:12-26 | appends exactly the polled single-measurement exchange |
| Modes.GuardAgreesWithTypeState | src/mode/dynamic.rs:47-226 | the corrected runtime guard allows an operation exactly where a type-state driver offers it. The exception is power off, which the runtime guard also allows in the three continuous modes |
| Modes.AsWrittenGuardException | src/mode/dynamic.rs:136-150 | the as-written runtime guard differs from the type-state one only for the single starts, in the modes without that capability |
| Modes.StartStopTransitions | src/mode/dynamic.rs:67-134 | the continuous and interleaved starts are allowed only in Ready, and each stop only in its own continuous mode. Starts lead to that mode and stops back to Ready |
| Modes.ReadPollPowerGuards | src/mode/dynamic.rs:152-226 | reads and power off are allowed in every mode but PoweredOff, polled singles only in Ready, power-on only in PoweredOff. Power off leads to PoweredOff and power-on to Ready |
| Modes.PoweredOffOnlyPowersOn | src/mode/powered_off.rs:9-21 | a powered-off driver offers no read or single start, and power-on-and-init is its only operation in both APIs |
| Modes.PoweredOffOnlyByPowerOff | src/mode/dynamic.rs:200-226 | a driver reaches PoweredOff only through power off, and leaves it only through power-on-and-init |
| Modes.RangeContinuousScenario | src/mode/dynamic.rs:67-86 | start, read, stop of range continuous returns to Ready. A second start from RangeContinuous is refused and the mode stays |
| Dynamic.GuardedOutcome | src/mode/dynamic.rs:47-52 | a guarded operation returns `InvalidMethod(mode)` iff its guard fails, and then sends nothing; otherwise it is the direct operation |
| Dynamic.ReadsNeverInvalidMethod | src/mode/dynamic.rs:47-62 | the polled single measurement and the blocking read never produce `InvalidMethod` themselves |
| Dynamic.BlockingReadNeverInvalidMethod | src/mode/dynamic.rs:156-161 | the blocking read never produces `InvalidMethod` itself |
| Dynamic.StartsNeverInvalidMethod | src/mode/dynamic.rs:115-122 | the non-blocking read and the interleaved enable never produce `InvalidMethod` themselves |
| Dynamic.TryPollSingleBlocking | src/mode/dynamic.rs:47-62 | in Ready, the polled single measurement; elsewhere `InvalidMethod` and nothing sent |
| Dynamic.TryStartContinuous | src/mode/dynamic.rs:67-98 | in Ready, the continuous toggle. The mode becomes the channel's continuous mode iff it succeeds; elsewhere `InvalidMethod`, nothing sent, mode unchanged |
| Dynamic.TryStopContinuous | src/mode/dynamic.rs:79-110 | in the channel's continuous mode, the toggle; the mode becomes Ready iff it succeeds |
| Dynamic.TryStartInterleaved | src/mode/dynamic.rs:115-122 | in Ready, the interleaved enable; the mode becomes InterleavedContinuous iff it succeeds |
| Dynamic.TryStopInterleaved | src/mode/dynamic.rs:127-134 | in InterleavedContinuous, the interleaved disable; the mode becomes Ready iff it succeeds |
| Dynamic.TryStartSingleAsWritten | src/mode/dynamic.rs:140-150 | sends the single start in every mode, without a guard |
| Dynamic.UnguardedSingleStartSends | src/mode/dynamic.rs:136-150 | in PoweredOff the documented guard refuses a single start, but the as-written method sends one write and cannot return `InvalidMethod` |
| Dynamic.TryStartSingle | src/mode/dynamic.rs:136-150 | the single start only in Ready or the other channel's continuous mode (as documented); elsewhere `InvalidMethod`, nothing sent |
| Dynamic.TryReadBlocking | src/mode/dynamic.rs:156-183 | outside PoweredOff, the blocking read; in PoweredOff `InvalidMethod` and nothing sent |
| Dynamic.TryRead | src/mode/dynamic.rs:167-194 | outside PoweredOff, the non-blocking read; in PoweredOff `InvalidMethod` and nothing sent |
| Dynamic.TryPowerOff | src/mode/dynamic.rs:200-210 | outside PoweredOff, one pin-low request, and the mode becomes PoweredOff iff it succeeds. In PoweredOff, `InvalidMethod` with no pin request |
| Dynamic.TryPowerOnAndInit | src/mode/dynamic.rs:216-226 | in PoweredOff, power-on-and-init, and the mode becomes Ready iff it succeeds; in every other mode `InvalidMethod` and nothing changes, for any configuration and any bus replies |
| TypeState.WithConfig | src/mode/ready.rs:32-40 | clones the configuration into a new Ready driver and initialises it. The result reports init's result, and the caller's configuration is untouched |
| TypeState.New | src/mode/ready.rs:26-29 | `with_config` on the defaults: address 0x29 |
| TypeState.IntoDynamicMode | src/mode/ready.rs:49-51 | the same bus and configuration in DynamicMode, starting in Ready |
| TypeState.PollSingleBlocking | src/mode/ready.rs:56-65 | only in Ready; the polled single measurement |
| TypeState.StartSingle | src/mode.rs:131-157 | only in modes with the channel's single-start capability; the single start |
| TypeState.StartContinuousMode | src/mode/ready.rs:72-87 | only in Ready; the toggle. On success, a driver over the same bus and configuration in the continuous mode |
| TypeState.StartInterleavedContinuousMode | src/mode/ready.rs:91-97 | only in Ready; the interleaved enable. On success, a driver in InterleavedContinuous |
| TypeState.PowerOff | src/mode/ready.rs:100-106 | only in Ready; one pin-low request. On success, a driver in PoweredOff with the pin low |
| TypeState.Toggle | src/mode/continuous.rs:23-55 | only in the channel's continuous mode; the toggle |
| TypeState.StopContinuous | src/mode/continuous.rs:31-61 | only in the channel's continuous mode; the toggle. On success, a driver in Ready |
| TypeState.EnableInterleavedContinuous | src/mode/continuous.rs:93-109 | only in InterleavedContinuous; the check, an ambient toggle, then the enable and a second toggle |
| TypeState.StopInterleavedContinuous | src/mode/continuous.rs:112-118 | only in InterleavedContinuous; the disable. On success, a driver in Ready |
| TypeState.PowerOnAndInit | src/mode/powered_off.rs:15-21 | only in PoweredOff; power-on-and-init. On success, a driver in Ready |

## Left out

- Lux conversion (`read_measurements.rs` 60-84 and 122-132). It is `f32` arithmetic and is not modelled. The ambient-lux operations (`poll_ambient_single_blocking`, `try_read_ambient_lux*`) are modelled up to the raw 16-bit ambient value they convert.
- Floating-point minimums (`config.rs` 137 and 228, `start_stop_measurements.rs` 79-81). Each `(x as f32 / 0.9) as u16` is modelled as the exact rational floor. `f32` rounding could differ by one where the exact quotient is an integer.
- Configuration.AmbientPeriodMinimumAsWritten: modelled as the floor of 11 × integration / 9 in exact rational arithmetic. It stands in for the as-written `f32` truncation. Where 11 × integration / 9 is an integer, the `f32` result may be one less.
- Loop counter width: `c` and `io_timeout`/`poll_max_loop` are `u16`. With a limit of 0 the source loop never times out, and its counter overflows after 65535 loops. That overflow is not modelled. The bus model ends every poll when the reply script runs out.
- `poll_max_loop` (the current read path) and `io_timeout` (the older `mode.rs` read path) are both modelled as the configuration's `ioTimeout`.
- The crate's `register.rs` does not define `ResultInterruptStatusGpioCode::has_status` or `has_error_or_event`. It also does not define the status-code enums, the start, clear and interleaved codes, or the GPIO1 polarity and select codes. The code values follow the VL6180X datasheet. The meanings given to the two predicates are as follows:
  - `has_status` compares one field of the status byte (error bits 7:6, ambient 5:3, range 2:0). This agrees with every assertion in `register_tests.rs`.
  - `has_error_or_event(k, b)` (`mode.rs` 31, 49, 77 and 102) holds when event `k` is flagged or the error field is not `NoError` (`Measurements.HasErrorOrEvent`).
  - `try_from` is applied to the status nibble (the byte shifted right by four, as `read_measurements.rs` 45 and 111 do). The two `try_from` tests become lemmas about `StatusNibble`.
- `mode.rs` 58-70 (`get_range_val_and_status` of the older revision) does not compile as written. The older range read is modelled with the current revision's value step.
- The I2C peripheral and the shutdown pin are modelled as a scripted reply sequence with a transaction log, and as a pin with scripted outcomes. Bus error payloads (`E`, `PE`) are collapsed to `BusError` and `GpioPinError`, and `Error2` is merged into `Error`.
- DeviceStatus.WaitDeviceBooted: requires that the scripted replies eventually report a booted device. The source busy-waits forever otherwise, and a non-terminating loop is not modelled. The same precondition carries over to DeviceStatus.PowerOnAndInitDirect, TypeState.PowerOnAndInit and the PoweredOff case of Dynamic.TryPowerOnAndInit. In the first two it is also required when the pin fails, although the source returns `GpioPinError` before any wait (`device_status.rs` 74-76).
- Initialisation requires a valid configuration (`Sensor.Valid`). `Config::new` gives a valid configuration, and the corrected setters keep it valid (`SettersKeepValid`). The ambient inter-measurement setter as written does not: it accepts 2560 and stores it in the range period (`config.rs` 227-233), which leaves the configuration invalid. The model does not follow initialisation from such a state. Its consequence, the underflow of the range period code, is stated by Init.AmbientSetterAsWrittenBreaksInit and the Findings row for `config.rs:230`. An invalid gain level or scaling would also index outside the gain or scaler tables in the source.
- `init.rs` also writes the ambient scaling and four interrupt thresholds, but `Config::new` (`config.rs` 78-107) sets no such fields. They are constructor parameters here.
- `init.rs` 4 imports `AMBIENT_ANALOGUE_GAIN_CODE` and `RANGE_SCALAR_CODE` from the register module, which `register.rs` does not define. The model uses the tables at `config.rs` 10-13 (`RANGE_SCALAR_VALUES`, `SYSALS__ANALOGUE_GAIN_VALUES`) in their place.
- Registers.AddrInverse, Registers.AddrInjective and Registers.AddrBound: their register table has one entry that the `Register` enum of `register.rs` 8-83 lacks. That entry is `RangeScaler`, the 16-bit register `RANGE_SCALER` that `init.rs` 154 writes through the crate's 16-bit register table. Its address, 0x096, is taken from `init.rs` 20-21, which write 0x096 and 0x097 raw, with the comment "RANGE_SCALER = 253" on the 0x097 write.
- `into_mode` is not among the modelled files. Moving into a mode is modelled as a fresh driver over the same bus and configuration.
- Measurements.ReadTypedOutcome: states only the not-ready path of the older non-blocking read. The value step it continues with is stated by Measurements.ValAndStatusOutcome and Measurements.TypedAmbientOutcome.
- Measurements.ReadBlockingTypedOutcome: states only the timeout condition of the older blocking read. The value step is stated by the same two lemmas.
- `check_config_valid` (start_stop_measurements.rs 77-88, continuous.rs 81-91) is modelled as written. StartStop.CheckConfigValidExamples shows it accepting a configuration that violates the documented inequality, by the same truncation as the ambient minimum. No corrected variant is modelled.
- Unused members: the commented-out `write_6bytes` and the named-register wrapper functions, which only cast the register to its address. Reading the 32-bit registers is modelled (`ReadRegister32`), although nothing in the crate calls it.

## Findings

| source | as written | input that shows it | evidently intended | confidence | as-written member | corrected member |
|---|---|---|---|---|---|---|
| src/config.rs:233 | `set_ambient_inter_measurement_period` stores into `range_inter_measurement_period` | defaults, then set 1000: the ambient period stays 500 and the range period becomes 1000 | store into `ambient_inter_measurement_period` | high, not executed | Configuration.AmbientSetterAsWrittenWrongField | Configuration.Config.SetAmbientInterMeasurementPeriod |
| src/config.rs:230 | the upper bound is 2560 (the documented maximum is 2550). At init, `(2560 / 10) as u8` is 0 and `0 - 1` underflows (init.rs 79-80, 89-90) | defaults, then set 2560: accepted, and the init code computation underflows | reject periods above 2550 | high, not executed | Init.AmbientSetterAsWrittenBreaksInit | Init.InterMeasurementCode |
| src/i2c_interface.rs:98 | the register is widened to `u32` before `to_be_bytes`, so the frame's two address bytes are the zero high half | write 7 to register 0x0212: sends `[0,0,0,0,0,7]` | send `[0x02,0x12,0,0,0,7]` | high, not executed | Framing.Write32AsWrittenTargetsZero | Framing.FramesRoundTrip |
| src/mode/dynamic.rs:140-150 | `try_start_range_single` / `try_start_ambient_single` have no mode check, although documented to return `InvalidMethod` outside Ready and the other channel's continuous mode | in PoweredOff, `try_start_range_single` sends a start write and cannot return `InvalidMethod` | the same guard as the other `try_*` methods | high, not executed | Dynamic.UnguardedSingleStartSends | Dynamic.TryStartSingle |
| src/config.rs:228-229 | the ambient minimum is the truncated `integration × 1.1 / 0.9`, so it can fall below the documented bound | integration 17, period 20: 20 ≥ 20 is accepted, but 17 × 1.1 = 18.7 > 20 × 0.9 = 18 | the least period that satisfies the documented inequality (rounded up) | medium, not executed | Configuration.AmbientPeriodMinimumGap | Configuration.AmbientPeriodMinimumExact |
