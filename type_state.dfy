/** The type-state driver (src/mode/ready.rs, src/mode/continuous.rs,
    src/mode/powered_off.rs, and the capability-gated single starts of
    src/mode.rs). A method that changes the mode type consumes the driver
    and, on success, hands back a driver of the new mode type over the same
    bus and configuration; here that is a fresh `Sensor` whose `mode` is the
    new type-state marker. Each method is callable only on the mode types
    that offer it (`TypeStateAllows`) and leads to the mode `Next` gives. */
module TypeState {
  import opened Bytes
  import opened Errors
  import opened I2cBus
  import opened Configuration
  import opened Modes
  import opened Driver
  import opened Init
  import opened DeviceStatus
  import opened Measurements
  import opened StartStop

  /** The driver `d'` is `d` moved into the mode type `m`. */
  predicate MovedInto(d': Sensor, d: Sensor, m: Mode)
    reads d'
  {
    d'.mode == TypeState(m) && d'.com == d.com && d'.config == d.config
  }

  /** A result carrying a driver reports what the exchange's result reports. */
  predicate Reports<T>(r: Result<Sensor>, e: Result<T>)
  {
    (r.Ok? <==> e.Ok?) && (r.Err? ==> e.Err? && r.error == e.error)
  }

  /** `VL6180X::with_config`: the configuration is cloned into a new
      ReadyMode driver, which is initialised; the caller's configuration
      is left as it was. */
  method WithConfig(com: Bus, config: Config) returns (r: Result<Sensor>)
    requires config.Snapshot().Valid()
    modifies com
    ensures var e := InitHardwareEx(config.address, config.Snapshot(), com.script, old(|com.log|));
      com.log == old(com.log) + e.trace && Reports(r, e.result)
    ensures r.Ok? ==>
      && fresh(r.value) && fresh(r.value.config) && r.value.mode == TypeState(Ready) && r.value.com == com
      && r.value.config.Snapshot() == InitSettings(config.address, config.Snapshot(), com.script, old(|com.log|))
      && r.value.Valid()
  {
    var copy := new Config.Copy(config);
    var chip := new Sensor(TypeState(Ready), com, copy);
    var init := InitHardware(chip);
    if init.Err? {
      return Err(init.error);
    }
    return Ok(chip);
  }

  /** `VL6180X::new`: `with_config` on `Config::new()`; the thresholds and
      the ambient scaling `Config::new` leaves unset are parameters. */
  method New(com: Bus, ambientScaling: byte, rangeHigh: byte, rangeLow: byte, ambientHigh: u16, ambientLow: u16)
    returns (r: Result<Sensor>)
    modifies com
    ensures var s := Defaults(ambientScaling, rangeHigh, rangeLow, ambientHigh, ambientLow);
      var e := InitHardwareEx(0x29, s, com.script, old(|com.log|));
      com.log == old(com.log) + e.trace && Reports(r, e.result)
    ensures r.Ok? ==>
      && fresh(r.value) && fresh(r.value.config) && r.value.mode == TypeState(Ready) && r.value.com == com
      && r.value.config.Snapshot()
         == InitSettings(0x29, Defaults(ambientScaling, rangeHigh, rangeLow, ambientHigh, ambientLow), com.script, old(|com.log|))
      && r.value.Valid() && r.value.config.address == 0x29
  {
    var config := new Config.New(ambientScaling, rangeHigh, rangeLow, ambientHigh, ambientLow);
    r := WithConfig(com, config);
  }

  /** `into_dynamic_mode`: the same bus and configuration behind the
      runtime-checked mode, which `DynamicMode::new()` starts in Ready. */
  method IntoDynamicMode(d: Sensor) returns (d': Sensor)
    requires d.mode == TypeState(Ready)
    ensures fresh(d') && d'.mode == DynamicMode(Ready) && d'.com == d.com && d'.config == d.config
    ensures !d'.didTimeout
  {
    d' := new Sensor(DynamicMode(Ready), d.com, d.config);
  }

  /** `poll_range_single_blocking_mm` / `poll_ambient_single_blocking` of
      ReadyMode (before the lux conversion). */
  method PollSingleBlocking(d: Sensor, ch: Channel) returns (r: Result<u16>)
    requires d.mode.TypeState? && TypeStateAllows(PollOp(ch), d.mode.mode)
    modifies d.com
    ensures var e := PollSingleEx(d.config.address, ch, d.config.rangeScaling, d.config.ioTimeout,
                                  d.com.script, old(|d.com.log|));
      d.com.log == old(d.com.log) + e.trace && r == e.result
  {
    r := PollSingleBlockingDirect(d, ch);
  }

  /** `start_range_single` / `start_ambient_single` (src/mode.rs): only on
      the mode types with the matching capability. */
  method StartSingle(d: Sensor, ch: Channel) returns (r: Result<()>)
    requires d.mode.TypeState? && TypeStateAllows(SingleOp(ch), d.mode.mode)
    modifies d.com
    ensures var e := StartSingleEx(d.config.address, ch, d.com.script, old(|d.com.log|));
      d.com.log == old(d.com.log) + e.trace && r == e.result
  {
    r := StartSingleDirect(d, ch);
  }

  /** `start_range_continuous_mode` / `start_ambient_continuous_mode`: move
      into the continuous mode type, then toggle the measurement on. */
  method StartContinuousMode(d: Sensor, ch: Channel) returns (r: Result<Sensor>)
    requires d.mode.TypeState? && TypeStateAllows(StartOp(ch), d.mode.mode)
    modifies d.com
    ensures var e := ToggleEx(d.config.address, ch, d.com.script, old(|d.com.log|));
      d.com.log == old(d.com.log) + e.trace && Reports(r, e.result)
    ensures r.Ok? ==> fresh(r.value) && MovedInto(r.value, d, Next(StartOp(ch), d.mode.mode))
  {
    var chip := new Sensor(TypeState(ContinuousMode(ch)), d.com, d.config);
    var toggle := ToggleContinuousDirect(chip, ch);
    if toggle.Err? {
      return Err(BusError);
    }
    return Ok(chip);
  }

  /** `start_interleaved_continuous_mode`: move into the interleaved mode
      type, then check the timing and enable the interleaved measurement. */
  method StartInterleavedContinuousMode(d: Sensor) returns (r: Result<Sensor>)
    requires d.mode.TypeState? && TypeStateAllows(StartInterleaved, d.mode.mode)
    modifies d.com
    ensures var e := EnableInterleavedEx(d.config.address, d.config.Snapshot(), d.com.script, old(|d.com.log|));
      d.com.log == old(d.com.log) + e.trace && Reports(r, e.result)
    ensures r.Ok? ==> fresh(r.value) && MovedInto(r.value, d, Next(StartInterleaved, d.mode.mode))
  {
    var chip := new Sensor(TypeState(InterleavedContinuous), d.com, d.config);
    var enable := EnableInterleavedContinuousDirect(chip);
    if enable.Err? {
      return Err(enable.error);
    }
    return Ok(chip);
  }

  /** `power_off` of ReadyMode: drive the shutdown pin low, then move into
      PoweredOffMode. */
  method PowerOff(d: Sensor, pin: Pin) returns (r: Result<Sensor>)
    requires d.mode.TypeState? && TypeStateAllows(Op.PowerOff, d.mode.mode)
    modifies pin
    ensures pin.requests == old(pin.requests) + [false]
    ensures Reports(r, if PinOk(pin.outcomes, |old(pin.requests)|) then Ok(()) else Err(GpioPinError))
    ensures r.Ok? ==> !pin.high && fresh(r.value) && MovedInto(r.value, d, Next(Op.PowerOff, d.mode.mode))
  {
    var off := PowerOffDirect(d, pin);
    if off.Err? {
      return Err(off.error);
    }
    var chip := new Sensor(TypeState(PoweredOff), d.com, d.config);
    return Ok(chip);
  }

  /** `toggle_range_continuous` / `toggle_ambient_continuous` of the
      continuous mode types. */
  method Toggle(d: Sensor, ch: Channel) returns (r: Result<()>)
    requires d.mode == TypeState(ContinuousMode(ch))
    modifies d.com
    ensures var e := ToggleEx(d.config.address, ch, d.com.script, old(|d.com.log|));
      d.com.log == old(d.com.log) + e.trace && r == e.result
  {
    r := ToggleContinuousDirect(d, ch);
  }

  /** `stop_range_continuous` / `stop_ambient_continuous`: toggle the
      measurement off, then move back into ReadyMode. */
  method StopContinuous(d: Sensor, ch: Channel) returns (r: Result<Sensor>)
    requires d.mode.TypeState? && TypeStateAllows(StopOp(ch), d.mode.mode)
    modifies d.com
    ensures var e := ToggleEx(d.config.address, ch, d.com.script, old(|d.com.log|));
      d.com.log == old(d.com.log) + e.trace && Reports(r, e.result)
    ensures r.Ok? ==> fresh(r.value) && MovedInto(r.value, d, Next(StopOp(ch), d.mode.mode))
  {
    var toggle := ToggleContinuousDirect(d, ch);
    if toggle.Err? {
      return Err(BusError);
    }
    var chip := new Sensor(TypeState(Ready), d.com, d.config);
    return Ok(chip);
  }

  /** `enable_interleaved_continuous` of InterleavedContinuousMode. */
  method EnableInterleavedContinuous(d: Sensor) returns (r: Result<()>)
    requires d.mode == TypeState(InterleavedContinuous)
    modifies d.com
    ensures var e := EnableInterleavedTypedEx(d.config.address, d.config.Snapshot(), d.com.script, old(|d.com.log|));
      d.com.log == old(d.com.log) + e.trace && r == e.result
  {
    r := CheckConfigValid(d.config.Snapshot());
    if r.Err? {
      return;
    }
    r := d.WriteRegisters(EnableWritesTyped());
  }

  /** `stop_interleaved_continuous`: disable the interleaved mode, then move
      back into ReadyMode. */
  method StopInterleavedContinuous(d: Sensor) returns (r: Result<Sensor>)
    requires d.mode.TypeState? && TypeStateAllows(StopInterleaved, d.mode.mode)
    modifies d.com
    ensures var e := StopInterleavedEx(d.config.address, d.com.script, old(|d.com.log|));
      d.com.log == old(d.com.log) + e.trace && Reports(r, e.result)
    ensures r.Ok? ==> fresh(r.value) && MovedInto(r.value, d, Next(StopInterleaved, d.mode.mode))
  {
    var stop := StopInterleavedContinuousDirect(d);
    if stop.Err? {
      return Err(BusError);
    }
    var chip := new Sensor(TypeState(Ready), d.com, d.config);
    return Ok(chip);
  }

  /** `power_on_and_init` of PoweredOffMode: drive the pin high, wait for
      the device to boot, initialise it, then move into ReadyMode. */
  method PowerOnAndInit(d: Sensor, pin: Pin) returns (r: Result<Sensor>)
    requires d.mode.TypeState? && TypeStateAllows(Op.PowerOnAndInit, d.mode.mode)
    requires d.Valid() && BootsFrom(d.com.script, |d.com.log|)
    modifies pin, d.com, d.config
    ensures pin.requests == old(pin.requests) + [true]
    ensures d.Valid() && d.config.address == old(d.config.address)
    ensures var ok := PinOk(pin.outcomes, |old(pin.requests)|);
      && d.config.Snapshot() == PowerOnSettings(d.config.address, old(d.config.Snapshot()), ok, d.com.script, old(|d.com.log|))
      && var e := PowerOnAndInitEx(d.config.address, old(d.config.Snapshot()), ok, d.com.script, old(|d.com.log|));
         d.com.log == old(d.com.log) + e.trace && Reports(r, e.result)
    ensures r.Ok? ==> fresh(r.value) && MovedInto(r.value, d, Next(Op.PowerOnAndInit, d.mode.mode))
  {
    var on := PowerOnAndInitDirect(d, pin);
    if on.Err? {
      return Err(on.error);
    }
    var chip := new Sensor(TypeState(Ready), d.com, d.config);
    return Ok(chip);
  }
}
