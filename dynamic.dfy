/** The runtime-checked driver `VL6180X<DynamicMode, I2C>`
    (src/mode/dynamic.rs): every `try_*` method compares the stored
    `operating_mode` with the modes its operation is valid in, returns
    `InvalidMethod(current)` without touching the bus when it is not, and
    otherwise runs the operation and records the new mode only after the
    operation succeeded. */
module Dynamic {
  import opened Bytes
  import opened Errors
  import opened Registers
  import opened I2cBus
  import opened Configuration
  import opened Modes
  import opened Driver
  import opened DeviceStatus
  import opened Measurements
  import opened StartStop

  /** A call behind a runtime guard: rejected with the current mode and no
      bus traffic when the guard fails, otherwise the operation `e`. */
  function Guarded<T>(guard: bool, m: Mode, e: Exchange<T>): Exchange<T>
  {
    if guard then e else Exchange([], Err(InvalidMethod(m)))
  }

  /** Since no operation of the driver reports `InvalidMethod` itself, a
      guarded call returns `InvalidMethod(m)` exactly when its guard fails,
      and then it has sent nothing; when the guard holds it is the
      operation unchanged. */
  lemma GuardedOutcome<T>(guard: bool, m: Mode, e: Exchange<T>)
    requires !(e.result.Err? && e.result.error.InvalidMethod?)
    ensures Guarded(guard, m, e).result == Err(InvalidMethod(m)) <==> !guard
    ensures !guard ==> Guarded(guard, m, e).trace == []
    ensures guard ==> Guarded(guard, m, e) == e
  {
  }

  /** None of the measurement operations behind the guards reports
      `InvalidMethod`: the blocking reads and the single-shot polls fail
      only with a bus error, a timeout or a status the device reported. */
  lemma ReadsNeverInvalidMethod(device: byte, ch: Channel, scaling: byte, max: nat, rs: seq<Reply>, i: nat)
    requires 1 <= max
    ensures !PollSingleEx(device, ch, scaling, max, rs, i).result.Err?
         || !PollSingleEx(device, ch, scaling, max, rs, i).result.error.InvalidMethod?
    ensures !ReadBlockingEx(device, ch, scaling, max, rs, i).result.Err?
         || !ReadBlockingEx(device, ch, scaling, max, rs, i).result.error.InvalidMethod?
  {
    BlockingReadNeverInvalidMethod(device, ch, scaling, max, rs, i);
    BlockingReadNeverInvalidMethod(device, ch, scaling, max, rs, i + 1);
  }

  lemma BlockingReadNeverInvalidMethod(device: byte, ch: Channel, scaling: byte, max: nat, rs: seq<Reply>, i: nat)
    requires 1 <= max
    ensures !ReadBlockingEx(device, ch, scaling, max, rs, i).result.Err?
         || !ReadBlockingEx(device, ch, scaling, max, rs, i).result.error.InvalidMethod?
  {
    var poll := PollEx(device, Waiting(WhileNoEvents(ch)), max, 0, rs, i);
    PollShape(device, Waiting(WhileNoEvents(ch)), max, 0, rs, i);
    ValAndStatusOutcome(device, ch, scaling, rs, i + |poll.trace|);
  }

  /** The non-blocking read and the interleaved start do not report
      `InvalidMethod` either. */
  lemma StartsNeverInvalidMethod(device: byte, ch: Channel, s: Settings, scaling: byte, rs: seq<Reply>, i: nat)
    ensures !ReadDirectEx(device, ch, scaling, rs, i).result.Err?
         || !ReadDirectEx(device, ch, scaling, rs, i).result.error.InvalidMethod?
    ensures !EnableInterleavedEx(device, s, rs, i).result.Err?
         || !EnableInterleavedEx(device, s, rs, i).result.error.InvalidMethod?
  {
    ValAndStatusOutcome(device, ch, scaling, rs, i + 1);
    EnableInterleavedOutcome(device, s, rs, i);
  }

  /** `try_poll_range_single_blocking_mm` / `try_poll_ambient_single_blocking`
      (before the lux conversion). */
  method TryPollSingleBlocking(d: Sensor, ch: Channel) returns (r: Result<u16>)
    requires d.mode.DynamicMode?
    modifies d.com
    ensures var m := d.mode.operatingMode;
      var e := Guarded(DynamicGuard(PollOp(ch), m), m,
                       PollSingleEx(d.config.address, ch, d.config.rangeScaling, d.config.ioTimeout,
                                    d.com.script, old(|d.com.log|)));
      d.com.log == old(d.com.log) + e.trace && r == e.result
  {
    if d.mode.operatingMode != Ready {
      return Err(InvalidMethod(d.mode.operatingMode));
    }
    r := PollSingleBlockingDirect(d, ch);
  }

  /** `try_start_range_continuous_mode` / `try_start_ambient_continuous_mode`. */
  method TryStartContinuous(d: Sensor, ch: Channel) returns (r: Result<()>)
    requires d.mode.DynamicMode?
    modifies d`mode, d.com
    ensures var m := old(d.mode.operatingMode);
      var e := Guarded(DynamicGuard(StartOp(ch), m), m, ToggleEx(d.config.address, ch, d.com.script, old(|d.com.log|)));
      && d.com.log == old(d.com.log) + e.trace && r == e.result
      && d.mode == DynamicMode(if r.Ok? then Next(StartOp(ch), m) else m)
  {
    if d.mode.operatingMode != Ready {
      return Err(InvalidMethod(d.mode.operatingMode));
    }
    var toggle := ToggleContinuousDirect(d, ch);
    if toggle.Err? {
      return Err(BusError);
    }
    d.mode := DynamicMode(ContinuousMode(ch));
    return Ok(());
  }

  /** `try_stop_range_continuous_mode` / `try_stop_ambient_continuous_mode`. */
  method TryStopContinuous(d: Sensor, ch: Channel) returns (r: Result<()>)
    requires d.mode.DynamicMode?
    modifies d`mode, d.com
    ensures var m := old(d.mode.operatingMode);
      var e := Guarded(DynamicGuard(StopOp(ch), m), m, ToggleEx(d.config.address, ch, d.com.script, old(|d.com.log|)));
      && d.com.log == old(d.com.log) + e.trace && r == e.result
      && d.mode == DynamicMode(if r.Ok? then Next(StopOp(ch), m) else m)
  {
    if d.mode.operatingMode != ContinuousMode(ch) {
      return Err(InvalidMethod(d.mode.operatingMode));
    }
    var toggle := ToggleContinuousDirect(d, ch);
    if toggle.Err? {
      return Err(BusError);
    }
    d.mode := DynamicMode(Ready);
    return Ok(());
  }

  /** `try_start_interleaved_continuous_mode`. */
  method TryStartInterleaved(d: Sensor) returns (r: Result<()>)
    requires d.mode.DynamicMode?
    modifies d`mode, d.com
    ensures var m := old(d.mode.operatingMode);
      var e := Guarded(DynamicGuard(StartInterleaved, m), m,
                       EnableInterleavedEx(d.config.address, d.config.Snapshot(), d.com.script, old(|d.com.log|)));
      && d.com.log == old(d.com.log) + e.trace && r == e.result
      && d.mode == DynamicMode(if r.Ok? then Next(StartInterleaved, m) else m)
  {
    if d.mode.operatingMode != Ready {
      return Err(InvalidMethod(d.mode.operatingMode));
    }
    r := EnableInterleavedContinuousDirect(d);
    if r.Err? {
      return;
    }
    d.mode := DynamicMode(InterleavedContinuous);
  }

  /** `try_stop_interleaved_continuous_mode`. */
  method TryStopInterleaved(d: Sensor) returns (r: Result<()>)
    requires d.mode.DynamicMode?
    modifies d`mode, d.com
    ensures var m := old(d.mode.operatingMode);
      var e := Guarded(DynamicGuard(StopInterleaved, m), m, StopInterleavedEx(d.config.address, d.com.script, old(|d.com.log|)));
      && d.com.log == old(d.com.log) + e.trace && r == e.result
      && d.mode == DynamicMode(if r.Ok? then Next(StopInterleaved, m) else m)
  {
    if d.mode.operatingMode != InterleavedContinuous {
      return Err(InvalidMethod(d.mode.operatingMode));
    }
    var stop := StopInterleavedContinuousDirect(d);
    if stop.Err? {
      return Err(BusError);
    }
    d.mode := DynamicMode(Ready);
    return Ok(());
  }

  /** `try_start_range_single` / `try_start_ambient_single` as written:
      no check at all, whatever the mode. */
  method TryStartSingleAsWritten(d: Sensor, ch: Channel) returns (r: Result<()>)
    requires d.mode.DynamicMode?
    modifies d.com
    ensures var e := StartSingleEx(d.config.address, ch, d.com.script, old(|d.com.log|));
      d.com.log == old(d.com.log) + e.trace && r == e.result
  {
    r := StartSingleDirect(d, ch);
  }

  /** The unguarded single start writes its start code even to a powered
      off device, and never reports `InvalidMethod`, although its doc
      comment promises that error outside Ready and the other channel's
      continuous mode. */
  lemma UnguardedSingleStartSends(device: byte, ch: Channel, rs: seq<Reply>, i: nat)
    ensures !DynamicGuard(SingleOp(ch), PoweredOff) && DynamicGuardAsWritten(SingleOp(ch), PoweredOff)
    ensures |StartSingleEx(device, ch, rs, i).trace| == 1
    ensures StartSingleEx(device, ch, rs, i).result != Err(InvalidMethod(PoweredOff))
    ensures StartSingleEx(device, ch, rs, i) != Guarded(false, PoweredOff, StartSingleEx(device, ch, rs, i))
  {
  }

  /** `try_start_range_single` / `try_start_ambient_single` with the check
      their doc comments describe: valid in Ready and in the continuous mode
      of the other channel. */
  method TryStartSingle(d: Sensor, ch: Channel) returns (r: Result<()>)
    requires d.mode.DynamicMode?
    modifies d.com
    ensures var m := d.mode.operatingMode;
      var e := Guarded(DynamicGuard(SingleOp(ch), m), m, StartSingleEx(d.config.address, ch, d.com.script, old(|d.com.log|)));
      d.com.log == old(d.com.log) + e.trace && r == e.result
  {
    var other := if ch.RangeChannel? then AmbientChannel else RangeChannel;
    if d.mode.operatingMode != Ready && d.mode.operatingMode != ContinuousMode(other) {
      return Err(InvalidMethod(d.mode.operatingMode));
    }
    r := StartSingleDirect(d, ch);
  }

  /** `try_read_range_mm_blocking` / `try_read_ambient_lux_blocking` (before
      the lux conversion). */
  method TryReadBlocking(d: Sensor, ch: Channel) returns (r: Result<u16>)
    requires d.mode.DynamicMode?
    modifies d.com
    ensures var m := d.mode.operatingMode;
      var e := Guarded(DynamicGuard(ReadBlockingOp(ch), m), m,
                       ReadBlockingEx(d.config.address, ch, d.config.rangeScaling, d.config.ioTimeout,
                                      d.com.script, old(|d.com.log|)));
      d.com.log == old(d.com.log) + e.trace && r == e.result
  {
    if d.mode.operatingMode == PoweredOff {
      return Err(InvalidMethod(d.mode.operatingMode));
    }
    r := ReadBlockingDirect(d, ch);
  }

  /** `try_read_range_mm` / `try_read_ambient_lux` (before the lux
      conversion). */
  method TryRead(d: Sensor, ch: Channel) returns (r: Result<u16>)
    requires d.mode.DynamicMode?
    modifies d.com
    ensures var m := d.mode.operatingMode;
      var e := Guarded(DynamicGuard(ReadOp(ch), m), m,
                       ReadDirectEx(d.config.address, ch, d.config.rangeScaling, d.com.script, old(|d.com.log|)));
      d.com.log == old(d.com.log) + e.trace && r == e.result
  {
    if d.mode.operatingMode == PoweredOff {
      return Err(InvalidMethod(d.mode.operatingMode));
    }
    r := ReadDirect(d, ch);
  }

  /** `try_power_off`: valid in every mode but PoweredOff. */
  method TryPowerOff(d: Sensor, pin: Pin) returns (r: Result<()>)
    requires d.mode.DynamicMode?
    modifies d`mode, pin
    ensures var m := old(d.mode.operatingMode);
      && (!DynamicGuard(PowerOff, m) ==> r == Err(InvalidMethod(m)) && pin.requests == old(pin.requests))
      && (DynamicGuard(PowerOff, m) ==>
            && pin.requests == old(pin.requests) + [false]
            && r == if PinOk(pin.outcomes, |old(pin.requests)|) then Ok(()) else Err(GpioPinError))
      && d.mode == DynamicMode(if r.Ok? then Next(PowerOff, m) else m)
    ensures !pin.high <==> old(!pin.high) || r.Ok?
  {
    if d.mode.operatingMode == PoweredOff {
      return Err(InvalidMethod(d.mode.operatingMode));
    }
    r := PowerOffDirect(d, pin);
    if r.Err? {
      return;
    }
    d.mode := DynamicMode(PoweredOff);
  }

  /** `try_power_on_and_init`: valid only in PoweredOff. */
  method TryPowerOnAndInit(d: Sensor, pin: Pin) returns (r: Result<()>)
    requires d.mode.DynamicMode?
    requires d.mode.operatingMode == PoweredOff ==> d.Valid() && BootsFrom(d.com.script, |d.com.log|)
    modifies d`mode, pin, d.com, d.config
    ensures old(d.Valid()) ==> d.Valid()
    ensures d.config.address == old(d.config.address)
    ensures var m := old(d.mode.operatingMode);
      && (!DynamicGuard(PowerOnAndInit, m) ==>
            && r == Err(InvalidMethod(m)) && pin.requests == old(pin.requests)
            && d.com.log == old(d.com.log) && d.config.Snapshot() == old(d.config.Snapshot()))
      && (DynamicGuard(PowerOnAndInit, m) ==>
            var ok := PinOk(pin.outcomes, |old(pin.requests)|);
            && pin.requests == old(pin.requests) + [true]
            && d.config.Snapshot() == PowerOnSettings(d.config.address, old(d.config.Snapshot()), ok, d.com.script, old(|d.com.log|))
            && var e := PowerOnAndInitEx(d.config.address, old(d.config.Snapshot()), ok, d.com.script, old(|d.com.log|));
               d.com.log == old(d.com.log) + e.trace && r == e.result)
      && d.mode == DynamicMode(if r.Ok? then Next(PowerOnAndInit, m) else m)
  {
    if d.mode.operatingMode != PoweredOff {
      return Err(InvalidMethod(d.mode.operatingMode));
    }
    r := PowerOnAndInitDirect(d, pin);
    if r.Err? {
      return;
    }
    d.mode := DynamicMode(Ready);
  }
}
