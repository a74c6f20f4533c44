/** Starting and stopping measurements (src/start_stop_measurements.rs):
    each start or stop is one 8-bit write of a start code to SYSRANGE__START
    or SYSALS__START, or of the interleaved enable code; the interleaved
    start first checks the configured timing, and the single-shot polls
    start a measurement and then wait for it. */
module StartStop {
  import opened Bytes
  import opened Errors
  import opened Registers
  import opened Framing
  import opened I2cBus
  import opened Configuration
  import opened Modes
  import opened Driver
  import opened Measurements

  /** SYSRANGE__START for range, SYSALS__START for ambient light. */
  function StartRegister(ch: Channel): u16
  {
    match ch
    case RangeChannel => Addr(SysrangeStart)
    case AmbientChannel => Addr(SysalsStart)
  }

  // The mode-dependent operations of each channel.

  /** The continuous mode of a channel. */
  function ContinuousMode(ch: Channel): Mode
  {
    match ch
    case RangeChannel => RangeContinuous
    case AmbientChannel => AmbientContinuous
  }

  function StartOp(ch: Channel): Op
  {
    match ch
    case RangeChannel => StartRangeContinuous
    case AmbientChannel => StartAmbientContinuous
  }

  function StopOp(ch: Channel): Op
  {
    match ch
    case RangeChannel => StopRangeContinuous
    case AmbientChannel => StopAmbientContinuous
  }

  function SingleOp(ch: Channel): Op
  {
    match ch
    case RangeChannel => StartRangeSingle
    case AmbientChannel => StartAmbientSingle
  }

  function PollOp(ch: Channel): Op
  {
    match ch
    case RangeChannel => PollRangeSingle
    case AmbientChannel => PollAmbientSingle
  }

  function ReadBlockingOp(ch: Channel): Op
  {
    match ch
    case RangeChannel => ReadRangeBlocking
    case AmbientChannel => ReadAmbientBlocking
  }

  function ReadOp(ch: Channel): Op
  {
    match ch
    case RangeChannel => ReadRange
    case AmbientChannel => ReadAmbient
  }

  /** `start_range_single_direct` / `start_ambient_single_direct`. */
  function StartSingleEx(device: byte, ch: Channel, rs: seq<Reply>, i: nat): Exchange<()>
  {
    WriteEx(device, Write8(StartRegister(ch), SingleStart), rs, i)
  }

  /** `toggle_range_continuous_direct` / `toggle_ambient_continuous_direct`:
      the same code starts and stops a continuous measurement. */
  function ToggleEx(device: byte, ch: Channel, rs: seq<Reply>, i: nat): Exchange<()>
  {
    WriteEx(device, Write8(StartRegister(ch), ContinuousStartOrStop), rs, i)
  }

  /** A single start writes exactly the byte 1, and a toggle exactly the
      byte 3, to its own channel's start register and to no other; either succeeds iff the device
      acknowledges and can only fail with a bus error. */
  lemma StartWrites(device: byte, ch: Channel, rs: seq<Reply>, i: nat)
    ensures var e := StartSingleEx(device, ch, rs, i);
      && |e.trace| == 1 && e.trace[0].device == device
      && TargetRegister(e.trace[0]) == StartRegister(ch) && Payload(e.trace[0]) == [SingleStart]
      && (e.result.Ok? <==> Nth(rs, i).Ack?) && (e.result.Err? ==> e.result.error == BusError)
    ensures var e := ToggleEx(device, ch, rs, i);
      && |e.trace| == 1 && e.trace[0].device == device
      && TargetRegister(e.trace[0]) == StartRegister(ch) && Payload(e.trace[0]) == [ContinuousStartOrStop]
      && (e.result.Ok? <==> Nth(rs, i).Ack?) && (e.result.Err? ==> e.result.error == BusError)
  {
    FramesRoundTrip(device, StartRegister(ch), SingleStart, 0, 0);
    FramesRoundTrip(device, StartRegister(ch), ContinuousStartOrStop, 0, 0);
  }

  // The interleaved mode

  /** `check_config_valid`: the ambient inter-measurement period must reach
      ((convergence + 5) + 1.1 * integration) / 0.9, truncated. */
  function CheckConfigValid(s: Settings): Result<()>
  {
    if s.ambientInterMeasurementPeriod < InterleavedMinimum(s.rangeMaxConvergenceTime, s.ambientIntegrationPeriod)
    then Err(InvalidConfigurationValue(s.ambientInterMeasurementPeriod))
    else Ok(())
  }

  /** The interleaved check passes iff 10 (convergence + 5) + 11 integration
      < 9 period + 9. So every configuration meeting the documented
      inequality (convergence + 5) + 1.1 integration <= 0.9 period passes,
      and a rejection reports the offending period. */
  lemma CheckConfigValidMeaning(s: Settings)
    ensures var c, g, p := s.rangeMaxConvergenceTime, s.ambientIntegrationPeriod, s.ambientInterMeasurementPeriod;
      && (CheckConfigValid(s).Ok? <==> 10 * (c + 5) + 11 * g < 9 * p + 9)
      && (10 * (c + 5) + 11 * g <= 9 * p ==> CheckConfigValid(s).Ok?)
      && (CheckConfigValid(s).Err? ==> CheckConfigValid(s).error == InvalidConfigurationValue(p))
  {
    InterleavedMinimumIff(s.rangeMaxConvergenceTime, s.ambientIntegrationPeriod, s.ambientInterMeasurementPeriod);
  }

  /** The truncation lets through a period below the documented bound:
      convergence 2, integration 2 and period 10 give 7 + 2.2 > 9, yet the
      check passes. The default configuration passes too. */
  lemma CheckConfigValidExamples(s: Settings)
    requires s.rangeMaxConvergenceTime == 2 && s.ambientIntegrationPeriod == 2
    requires s.ambientInterMeasurementPeriod == 10
    ensures 10 * (2 + 5) + 11 * 2 > 9 * 10
    ensures CheckConfigValid(s).Ok?
    ensures forall a: byte, rh: byte, rl: byte, ah: u16, al: u16 :: CheckConfigValid(Defaults(a, rh, rl, ah, al)).Ok?
  {
  }

  /** `enable_interleaved_continuous_direct`'s writes: interleaved enable,
      then the ambient continuous start. */
  function EnableWrites(): seq<RegWrite>
  {
    [Write8(Addr(InterleavedModeEnable), InterleavedEnable), Write8(Addr(SysalsStart), ContinuousStartOrStop)]
  }

  /** The interleaved enable and the continuous toggle as frames. */
  function EnableFrame(device: byte): Transaction
  {
    Write8Frame(device, Addr(InterleavedModeEnable), InterleavedEnable)
  }

  function ToggleFrame(device: byte, ch: Channel): Transaction
  {
    Write8Frame(device, StartRegister(ch), ContinuousStartOrStop)
  }

  /** `enable_interleaved_continuous_direct`. */
  function EnableInterleavedEx(device: byte, s: Settings, rs: seq<Reply>, i: nat): Exchange<()>
  {
    var check := CheckConfigValid(s);
    if check.Err? then Exchange([], check) else RunWrites(device, EnableWrites(), rs, i)
  }

  /** A configuration that fails the check is reported before anything is
      sent. Otherwise the interleaved enable is written first and the
      ambient start second, the start only if the enable was acknowledged;
      the whole succeeds iff the check passes and both are acknowledged. */
  lemma EnableInterleavedOutcome(device: byte, s: Settings, rs: seq<Reply>, i: nat)
    ensures var e := EnableInterleavedEx(device, s, rs, i);
      && (CheckConfigValid(s).Err? ==> e.trace == [] && e.result == CheckConfigValid(s))
      && (e.result.Ok? <==> CheckConfigValid(s).Ok? && AllAcked(rs, i, 2))
      && (e.result.Ok? ==> e.trace == [EnableFrame(device), ToggleFrame(device, AmbientChannel)])
      && (CheckConfigValid(s).Ok? && e.result.Err? ==>
            && e.result.error == BusError && 1 <= |e.trace| <= 2
            && e.trace[0] == EnableFrame(device))
  {
    if CheckConfigValid(s).Ok? {
      RunWritesOutcome(device, EnableWrites(), rs, i);
      assert Frames(device, EnableWrites()) == [EnableFrame(device), ToggleFrame(device, AmbientChannel)];
      assert EnableWrites()[..2] == EnableWrites();
    }
  }

  /** The writes of the type-state driver's `enable_interleaved_continuous`:
      an ambient toggle, the interleaved enable, a second ambient toggle. */
  function EnableWritesTyped(): seq<RegWrite>
  {
    [Write8(Addr(SysalsStart), ContinuousStartOrStop)] + EnableWrites()
  }

  /** `enable_interleaved_continuous` of InterleavedContinuousMode. */
  function EnableInterleavedTypedEx(device: byte, s: Settings, rs: seq<Reply>, i: nat): Exchange<()>
  {
    var check := CheckConfigValid(s);
    if check.Err? then Exchange([], check) else RunWrites(device, EnableWritesTyped(), rs, i)
  }

  /** The type-state variant performs the same check, then sends one extra
      ambient toggle ahead of exactly the writes of the runtime variant, and
      goes on with them only if that toggle was acknowledged. */
  lemma EnableInterleavedTypedOutcome(device: byte, s: Settings, rs: seq<Reply>, i: nat)
    ensures var e := EnableInterleavedTypedEx(device, s, rs, i);
      && (CheckConfigValid(s).Err? ==> e.trace == [] && e.result == CheckConfigValid(s))
      && (CheckConfigValid(s).Ok? && Nth(rs, i).Nack? ==>
            e == Exchange([ToggleFrame(device, AmbientChannel)], Err(BusError)))
      && (CheckConfigValid(s).Ok? && Nth(rs, i).Ack? ==>
            e == Splice([ToggleFrame(device, AmbientChannel)], EnableInterleavedEx(device, s, rs, i + 1)))
      && (e.result.Ok? <==> CheckConfigValid(s).Ok? && AllAcked(rs, i, 3))
  {
    if CheckConfigValid(s).Ok? {
      assert EnableWritesTyped()[1..] == EnableWrites();
      RunWritesOutcome(device, EnableWritesTyped(), rs, i);
      RunWritesOutcome(device, EnableWrites(), rs, i + 1);
    }
  }

  /** `stop_interleaved_continuous_direct`. */
  function StopInterleavedEx(device: byte, rs: seq<Reply>, i: nat): Exchange<()>
  {
    WriteEx(device, Write8(Addr(InterleavedModeEnable), InterleavedDisable), rs, i)
  }

  /** Stopping the interleaved mode writes 0 to the register the enable
      writes 1 to (INTERLEAVED_MODE__ENABLE, 0x2A3), and only that. */
  lemma StopInterleavedOutcome(device: byte, rs: seq<Reply>, i: nat)
    ensures var e := StopInterleavedEx(device, rs, i);
      && |e.trace| == 1 && TargetRegister(e.trace[0]) == Addr(InterleavedModeEnable)
      && Payload(e.trace[0]) == [InterleavedDisable]
      && (e.result.Ok? <==> Nth(rs, i).Ack?) && (e.result.Err? ==> e.result.error == BusError)
    ensures TargetRegister(EnableFrame(device)) == Addr(InterleavedModeEnable)
    ensures Payload(EnableFrame(device)) == [InterleavedEnable]
  {
    FramesRoundTrip(device, Addr(InterleavedModeEnable), InterleavedDisable, 0, 0);
    FramesRoundTrip(device, Addr(InterleavedModeEnable), InterleavedEnable, 0, 0);
  }

  // The single-shot polls

  /** `poll_range_mm_single_blocking_direct` /
      `poll_ambient_lux_single_blocking_direct` (before the lux conversion):
      a single start, then the blocking read. */
  function PollSingleEx(device: byte, ch: Channel, scaling: byte, max: nat, rs: seq<Reply>, i: nat): Exchange<u16>
  {
    Then(StartSingleEx(device, ch, rs, i), ReadBlockingEx(device, ch, scaling, max, rs, i + 1))
  }

  /** A single-shot poll always sends the single start first. If the start
      is rejected it stops there with a bus error; otherwise it is the
      blocking read on the following replies, and so it times out iff the
      `max` status polls after the start all report no events. */
  lemma PollSingleOutcome(device: byte, ch: Channel, scaling: byte, max: nat, rs: seq<Reply>, i: nat)
    requires 1 <= max
    ensures var e := PollSingleEx(device, ch, scaling, max, rs, i);
      && |e.trace| >= 1 && e.trace[0] == Write8Frame(device, StartRegister(ch), SingleStart)
      && (Nth(rs, i).Nack? ==> e == Exchange([Write8Frame(device, StartRegister(ch), SingleStart)], Err(BusError)))
      && (Nth(rs, i).Ack? ==>
            e == Splice([Write8Frame(device, StartRegister(ch), SingleStart)], ReadBlockingEx(device, ch, scaling, max, rs, i + 1)))
      && (e.result == Err(Timeout) <==>
            Nth(rs, i).Ack? && forall j :: i + 1 <= j < i + 1 + max ==> Waits(Waiting(WhileNoEvents(ch)), rs, j))
  {
    ReadBlockingOutcome(device, ch, scaling, max, rs, i + 1);
  }

  // The operations on the driver

  /** `start_range_single_direct` / `start_ambient_single_direct`. */
  method StartSingleDirect(d: Sensor, ch: Channel) returns (r: Result<()>)
    modifies d.com
    ensures var e := StartSingleEx(d.config.address, ch, d.com.script, old(|d.com.log|));
      d.com.log == old(d.com.log) + e.trace && r == e.result
  {
    r := d.WriteRegister(StartRegister(ch), SingleStart);
  }

  /** `toggle_range_continuous_direct` / `toggle_ambient_continuous_direct`. */
  method ToggleContinuousDirect(d: Sensor, ch: Channel) returns (r: Result<()>)
    modifies d.com
    ensures var e := ToggleEx(d.config.address, ch, d.com.script, old(|d.com.log|));
      d.com.log == old(d.com.log) + e.trace && r == e.result
  {
    r := d.WriteRegister(StartRegister(ch), ContinuousStartOrStop);
  }

  /** `enable_interleaved_continuous_direct`. */
  method EnableInterleavedContinuousDirect(d: Sensor) returns (r: Result<()>)
    modifies d.com
    ensures var e := EnableInterleavedEx(d.config.address, d.config.Snapshot(), d.com.script, old(|d.com.log|));
      d.com.log == old(d.com.log) + e.trace && r == e.result
  {
    var check := CheckConfigValid(d.config.Snapshot());
    if check.Err? {
      return check;
    }
    r := d.WriteRegisters(EnableWrites());
  }

  /** `stop_interleaved_continuous_direct`. */
  method StopInterleavedContinuousDirect(d: Sensor) returns (r: Result<()>)
    modifies d.com
    ensures var e := StopInterleavedEx(d.config.address, d.com.script, old(|d.com.log|));
      d.com.log == old(d.com.log) + e.trace && r == e.result
  {
    r := d.WriteRegister(Addr(InterleavedModeEnable), InterleavedDisable);
  }

  /** `poll_range_mm_single_blocking_direct` /
      `poll_ambient_lux_single_blocking_direct` before the lux conversion. */
  method PollSingleBlockingDirect(d: Sensor, ch: Channel) returns (r: Result<u16>)
    modifies d.com
    ensures var e := PollSingleEx(d.config.address, ch, d.config.rangeScaling, d.config.ioTimeout,
                                  d.com.script, old(|d.com.log|));
      d.com.log == old(d.com.log) + e.trace && r == e.result
  {
    ghost var log0 := d.com.log;
    var start := StartSingleDirect(d, ch);
    if start.Err? {
      return Err(BusError);
    }
    ghost var log1 := d.com.log;
    r := ReadBlockingDirect(d, ch);
    LogThen(log0, log1, d.com.log, StartSingleEx(d.config.address, ch, d.com.script, |log0|),
            ReadBlockingEx(d.config.address, ch, d.config.rangeScaling, d.config.ioTimeout, d.com.script, |log1|));
  }
}
