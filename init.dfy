/** Sensor initialisation (src/init.rs): the part-to-part offset read, the
    mandatory private register block, and the register values derived from
    the configuration. */
module Init {
  import opened Bytes
  import opened Optional
  import opened Errors
  import opened Registers
  import opened Framing
  import opened I2cBus
  import opened Configuration
  import opened Driver

  /** The mandatory private register settings (application note AN4545,
      "SR03 settings"), in the order they are written. */
  const PrivateSettings: seq<RegWrite> := [
    Write8(0x207, 0x01), Write8(0x208, 0x01), Write8(0x096, 0x00), Write8(0x097, 0xFD),
    Write8(0x0E3, 0x01), Write8(0x0E4, 0x03), Write8(0x0E5, 0x02), Write8(0x0E6, 0x01),
    Write8(0x0E7, 0x03), Write8(0x0F5, 0x02), Write8(0x0D9, 0x05), Write8(0x0DB, 0xCE),
    Write8(0x0DC, 0x03), Write8(0x0DD, 0xF8), Write8(0x09F, 0x00), Write8(0x0A3, 0x3C),
    Write8(0x0B7, 0x00), Write8(0x0BB, 0x3C), Write8(0x0B2, 0x09), Write8(0x0CA, 0x09),
    Write8(0x198, 0x01), Write8(0x1B0, 0x17), Write8(0x1AD, 0x00), Write8(0x0FF, 0x05),
    Write8(0x100, 0x05), Write8(0x199, 0x05), Write8(0x1A6, 0x1B), Write8(0x1AC, 0x3E),
    Write8(0x1A7, 0x1F), Write8(0x030, 0x00)]

  /** Clearing SYSTEM__FRESH_OUT_OF_RESET, right after the private block. */
  const ClearFreshOutOfReset: RegWrite := Write8(Addr(SystemFreshOutOfReset), 0)

  /** Default SYSRANGE__CROSSTALK_VALID_HEIGHT. */
  const DefaultCrosstalkValidHeight: byte := 20

  // Register encodings

  /** `((period / 10) as u8) - 1` as written: the quotient is truncated to
      eight bits and a zero quotient underflows (a panic in a debug build),
      which the model reports as `None`. */
  function InterMeasurementCodeAsWritten(period: u16): Option<byte>
  {
    var q := (period / 10) % 256;
    if q == 0 then None else Some(q - 1)
  }

  /** The inter-measurement register value of a period in range: the
      period in units of 10 ms, less one. */
  function InterMeasurementCode(period: u16): (code: byte)
    requires PeriodInRange(period)
    ensures code <= 254
    ensures (code + 1) * 10 == period
  {
    period / 10 - 1
  }

  /** The source's expression gives the documented code on every period in
      range, and underflows on 2560, the largest period the ambient setter
      as written accepts. */
  lemma InterMeasurementCodeAgrees(period: u16)
    ensures PeriodInRange(period) ==> InterMeasurementCodeAsWritten(period) == Some(InterMeasurementCode(period))
    ensures InterMeasurementCodeAsWritten(2560) == None
  {
    if PeriodInRange(period) {
      var q := period / 10;
      assert 1 <= q <= 255;
      assert q % 256 == q;
    }
  }

  /** A configuration reachable with the ambient setter as written cannot be
      encoded: from the defaults, setting the ambient period to 2560 ms is
      accepted and the range period register value then underflows. */
  lemma AmbientSetterAsWrittenBreaksInit(x: byte, y: byte, z: byte, v: u16, w: u16)
    ensures var u := UpdateAmbientInterMeasurementPeriodAsWritten(Defaults(x, y, z, v, w), 2560);
      u.result.Ok? && InterMeasurementCodeAsWritten(u.settings.rangeInterMeasurementPeriod) == None
  {
  }

  /** The integration period register value `period - 1`, in 0..=255 for
      every period the setter accepts. */
  function IntegrationCode(period: u16): (code: u16)
    requires 1 <= period <= 256
    ensures code <= 255 && code + 1 == period
  {
    period - 1
  }

  /** `range_interrupt_mode as u8 | ambient_interrupt_mode as u8`,
      computed as the sum of the two codes (`InterruptConfigIsOr` shows
      the OR of the disjoint fields is that sum). */
  function InterruptConfig(range: InterruptMode, ambient: InterruptMode): byte
  {
    RangeInterruptCode(range) + AmbientInterruptCode(ambient)
  }

  /** The two codes occupy disjoint bit fields (2:0 and 5:3), so their OR
      loses nothing: it is their sum. */
  lemma {:induction false} InterruptConfigIsOr(range: InterruptMode, ambient: InterruptMode)
    ensures BitOr(RangeInterruptCode(range), AmbientInterruptCode(ambient)) == InterruptConfig(range, ambient)
  {
    assert Pow2(3) == 8;
    BitOrDisjoint(ModeIndex(range), ModeIndex(ambient), 3);
  }

  /** Both modes can be recovered from the register value; it is zero iff
      both interrupts are disabled; two new-sample-ready modes give 0x24. */
  lemma InterruptConfigDecodes(range: InterruptMode, ambient: InterruptMode)
    ensures InterruptConfig(range, ambient) % 8 == ModeIndex(range)
    ensures InterruptConfig(range, ambient) / 8 == ModeIndex(ambient)
    ensures InterruptConfig(range, ambient) == 0 <==> range == Disabled && ambient == Disabled
    ensures InterruptConfig(NewSampleReady, NewSampleReady) == 0x24
  {
    assert ModeIndex(range) < 8;
  }

  /** SYSTEM__MODE_GPIO1: active high, interrupt output iff any interrupt
      is configured, otherwise off. */
  function Gpio1Mode(interruptConfig: byte): byte
  {
    if interruptConfig != 0 then 0x30 else 0x20
  }

  /** The register value is the OR of the polarity and select codes. */
  lemma Gpio1ModeIsOr(interruptConfig: byte)
    ensures Gpio1Mode(interruptConfig)
         == if interruptConfig != 0 then BitOr(Gpio1ActiveHigh, Gpio1InterruptOutput)
            else BitOr(Gpio1ActiveHigh, Gpio1Off)
  {
  }

  /** `(rce & 0xFE) | is_scaling_one`: the early convergence estimate is
      enabled only at 1x scaling, and bits 7:1 are kept. */
  function RangeCheckEnables(rce: byte, scaling: byte): byte
  {
    rce - rce % 2 + (if scaling == 1 then 1 else 0)
  }

  /** `RangeCheckEnables` is the masked OR the source computes. */
  lemma {:induction false} RangeCheckEnablesIsMask(rce: byte, scaling: byte)
    ensures BitOr(BitAnd(rce, 0xFE), if scaling == 1 then 1 else 0) == RangeCheckEnables(rce, scaling)
    ensures RangeCheckEnables(rce, scaling) / 2 == rce / 2
    ensures RangeCheckEnables(rce, scaling) % 2 == (if scaling == 1 then 1 else 0)
  {
    var bit: nat := if scaling == 1 then 1 else 0;
    ClearBit0(rce);
    assert Pow2(1) == 2;
    BitOrDisjoint(bit, rce / 2, 1);
    BitOrCommutes(bit, rce - rce % 2);
  }

  // The write sequences, in the order `set_configuration` issues them.

  /** From the averaging period to the range inter-measurement period. */
  function ConfigurationWrites(s: Settings): (ws: seq<RegWrite>)
    requires s.Valid()
    ensures |ws| == 8
  {
    [Write8(Addr(ReadoutAveragingSamplePeriod), s.readoutAveragingPeriodMultiplier),
     Write8(Addr(SysalsAnalogueGain), AnalogueGainValues[s.ambientAnalogueGainLevel]),
     Write8(Addr(FirmwareResultScaler), s.ambientScaling),
     Write8(Addr(SysrangeVhvRepeatRate), s.rangeVhvRecalibrationRate),
     Write16(Addr(SysalsIntegrationPeriod), IntegrationCode(s.ambientIntegrationPeriod)),
     Write8(Addr(SysalsIntermeasurementPeriod), InterMeasurementCode(s.ambientInterMeasurementPeriod)),
     Write8(Addr(SysrangeVhvRecalibrate), 0x01),
     Write8(Addr(SysrangeIntermeasurementPeriod), InterMeasurementCode(s.rangeInterMeasurementPeriod))]
  }

  /** `set_interrupts`. */
  function InterruptWrites(s: Settings): (ws: seq<RegWrite>)
    ensures |ws| == 6
  {
    var cfg := InterruptConfig(s.rangeInterruptMode, s.ambientInterruptMode);
    [Write8(Addr(SystemInterruptConfigGpio), cfg),
     Write8(Addr(SystemModeGpio1), Gpio1Mode(cfg)),
     Write8(Addr(SysrangeThreshHigh), s.rangeHighInterruptThreshold),
     Write8(Addr(SysrangeThreshLow), s.rangeLowInterruptThreshold),
     Write16(Addr(SysalsThreshHigh), s.ambientHighInterruptThreshold),
     Write16(Addr(SysalsThreshLow), s.ambientLowInterruptThreshold)]
  }

  /** The convergence time, then interleaved mode disabled. */
  function ClosingWrites(s: Settings): (ws: seq<RegWrite>)
    ensures |ws| == 2
  {
    [Write8(Addr(SysrangeMaxConvergenceTime), s.rangeMaxConvergenceTime),
     Write8(Addr(InterleavedModeEnable), InterleavedDisable)]
  }

  /** Every register write `set_configuration` issues before the scaling. */
  function SettingsWrites(s: Settings): (ws: seq<RegWrite>)
    requires s.Valid()
    ensures |ws| == 16
  {
    ConfigurationWrites(s) + InterruptWrites(s) + ClosingWrites(s)
  }

  /** The writes of `set_range_scaling` before its read-modify-write. */
  function ScalingWrites(ptpOffset: byte, scaling: byte): (ws: seq<RegWrite>)
    requires 1 <= scaling <= 3
    ensures |ws| == 3
  {
    [Write16(Addr(RangeScaler), RangeScalarValues[scaling]),
     Write8(Addr(SysrangePartToPartRangeOffset), ptpOffset / scaling),
     Write8(Addr(SysrangeCrosstalkValidHeight), DefaultCrosstalkValidHeight / scaling)]
  }

  /** The read-modify-write of SYSRANGE__RANGE_CHECK_ENABLES. */
  function RangeCheckEx(device: byte, scaling: byte, rs: seq<Reply>, i: nat): Exchange<()>
  {
    var rd := Read8Ex(device, Addr(SysrangeRangeCheckEnables), rs, i);
    if rd.result.Err? then Exchange(rd.trace, Err(BusError))
    else Splice(rd.trace, WriteEx(device, Write8(Addr(SysrangeRangeCheckEnables), RangeCheckEnables(rd.result.value, scaling)), rs, i + 1))
  }

  /** `set_range_scaling`: the scaled values, then the range check
      enables. */
  function SetRangeScalingEx(device: byte, ptpOffset: byte, scaling: byte, rs: seq<Reply>, i: nat): Exchange<()>
    requires 1 <= scaling <= 3
  {
    Then(RunWrites(device, ScalingWrites(ptpOffset, scaling), rs, i), RangeCheckEx(device, scaling, rs, i + 3))
  }

  /** `set_configuration`: the settings writes (with `set_interrupts` in
      the middle), then `set_range_scaling`. */
  function SetConfigurationEx(device: byte, s: Settings, rs: seq<Reply>, i: nat): Exchange<()>
    requires s.Valid()
  {
    Then(RunWrites(device, SettingsWrites(s), rs, i), SetRangeScalingEx(device, s.ptpOffset, s.rangeScaling, rs, i + 16))
  }

  /** The settings after `init_hardware`: the part-to-part offset is
      replaced by the value read, whenever that read succeeded. */
  function InitSettings(device: byte, s: Settings, rs: seq<Reply>, i: nat): (s': Settings)
    ensures s.Valid() ==> s'.Valid()
  {
    var rd := Read8Ex(device, Addr(SysrangePartToPartRangeOffset), rs, i);
    if rd.result.Ok? then s.(ptpOffset := rd.result.value) else s
  }

  /** `init_hardware`: the offset read, the private block, clearing
      SYSTEM__FRESH_OUT_OF_RESET, then `set_configuration` with the offset
      read. */
  function InitHardwareEx(device: byte, s: Settings, rs: seq<Reply>, i: nat): Exchange<()>
    requires s.Valid()
  {
    var rd := Read8Ex(device, Addr(SysrangePartToPartRangeOffset), rs, i);
    if rd.result.Err? then Exchange(rd.trace, Err(BusError))
    else Splice(rd.trace, Then(RunWrites(device, PrivateSettings + [ClearFreshOutOfReset], rs, i + 1),
                               SetConfigurationEx(device, InitSettings(device, s, rs, i), rs, i + 32)))
  }

  // What the sequences do on the bus

  /** The read-modify-write succeeds iff both its transactions are
      acknowledged; it writes back what it read with bit 0 replaced. */
  lemma RangeCheckOutcome(device: byte, scaling: byte, rs: seq<Reply>, i: nat)
    ensures var e := RangeCheckEx(device, scaling, rs, i);
      && (e.result.Ok? <==> AllAcked(rs, i, 2))
      && (e.result.Err? ==> e.result.error == BusError)
      && (e.result.Ok? ==>
            e.trace == [ReadFrame(device, Addr(SysrangeRangeCheckEnables), 1),
                        Write8Frame(device, Addr(SysrangeRangeCheckEnables),
                                    RangeCheckEnables(Byte0(Nth(rs, i).data), scaling))])
  {
  }

  /** `set_configuration` as the three write groups the driver issues
      one after the other, then the scaling. */
  lemma SetConfigurationGroups(device: byte, s: Settings, rs: seq<Reply>, i: nat)
    requires s.Valid()
    ensures SetConfigurationEx(device, s, rs, i)
         == Then(RunWrites(device, ConfigurationWrites(s), rs, i),
                 Then(RunWrites(device, InterruptWrites(s), rs, i + 8),
                      Then(RunWrites(device, ClosingWrites(s), rs, i + 14),
                           SetRangeScalingEx(device, s.ptpOffset, s.rangeScaling, rs, i + 16))))
  {
    var cw, iw, lw := ConfigurationWrites(s), InterruptWrites(s), ClosingWrites(s);
    var a, b, c := RunWrites(device, cw, rs, i), RunWrites(device, iw, rs, i + 8), RunWrites(device, lw, rs, i + 14);
    var d := SetRangeScalingEx(device, s.ptpOffset, s.rangeScaling, rs, i + 16);
    RunWritesAppend(device, cw, iw, rs, i);
    RunWritesAppend(device, cw + iw, lw, rs, i);
    ThenAssoc(Then(a, b), c, d);
    ThenAssoc(a, b, Then(c, d));
  }

  /** `set_range_scaling` succeeds iff all five transactions are
      acknowledged; it then sends the three scaled values and writes back
      the range check enables read in the fourth transaction with bit 0
      replaced. */
  lemma SetRangeScalingOutcome(device: byte, ptpOffset: byte, scaling: byte, rs: seq<Reply>, i: nat)
    requires 1 <= scaling <= 3
    ensures var e := SetRangeScalingEx(device, ptpOffset, scaling, rs, i);
      && (e.result.Ok? <==> AllAcked(rs, i, 5))
      && (e.result.Err? ==> e.result.error == BusError)
      && (e.result.Ok? ==>
            e.trace == Frames(device, ScalingWrites(ptpOffset, scaling))
                       + [ReadFrame(device, Addr(SysrangeRangeCheckEnables), 1),
                          Write8Frame(device, Addr(SysrangeRangeCheckEnables),
                                      RangeCheckEnables(Byte0(Nth(rs, i + 3).data), scaling))])
  {
    RangeCheckOutcome(device, scaling, rs, i + 3);
    WritesThenOutcome(device, ScalingWrites(ptpOffset, scaling), RangeCheckEx(device, scaling, rs, i + 3), rs, i, 2);
  }

  /** `set_configuration` succeeds iff all 21 transactions are
      acknowledged; it then sends the 16 settings writes in order, and
      then scales. */
  lemma SetConfigurationOutcome(device: byte, s: Settings, rs: seq<Reply>, i: nat)
    requires s.Valid()
    ensures var e := SetConfigurationEx(device, s, rs, i);
      && (e.result.Ok? <==> AllAcked(rs, i, 21))
      && (e.result.Err? ==> e.result.error == BusError)
      && (e.result.Ok? ==>
            && |e.trace| == 21
            && e.trace == Frames(device, SettingsWrites(s))
                          + SetRangeScalingEx(device, s.ptpOffset, s.rangeScaling, rs, i + 16).trace)
  {
    SetRangeScalingOutcome(device, s.ptpOffset, s.rangeScaling, rs, i + 16);
    WritesThenOutcome(device, SettingsWrites(s), SetRangeScalingEx(device, s.ptpOffset, s.rangeScaling, rs, i + 16), rs, i, 5);
  }

  /** `init_hardware` reads the part-to-part offset before anything else;
      it succeeds iff all 53 transactions are acknowledged, and then it has
      sent the private block, cleared FRESH_OUT_OF_RESET, and only then
      configured the sensor with the offset it read. */
  lemma InitHardwareOutcome(device: byte, s: Settings, rs: seq<Reply>, i: nat)
    requires s.Valid()
    ensures var e := InitHardwareEx(device, s, rs, i);
      && |e.trace| >= 1 && e.trace[0] == ReadFrame(device, Addr(SysrangePartToPartRangeOffset), 1)
      && (e.result.Ok? <==> AllAcked(rs, i, 53))
      && (e.result.Err? ==> e.result.error == BusError)
      && (e.result.Ok? ==>
            && |e.trace| == 53
            && e.trace == [ReadFrame(device, Addr(SysrangePartToPartRangeOffset), 1)]
                          + Frames(device, PrivateSettings + [ClearFreshOutOfReset])
                          + SetConfigurationEx(device, InitSettings(device, s, rs, i), rs, i + 32).trace)
  {
    var s' := InitSettings(device, s, rs, i);
    SetConfigurationOutcome(device, s', rs, i + 32);
    WritesThenOutcome(device, PrivateSettings + [ClearFreshOutOfReset], SetConfigurationEx(device, s', rs, i + 32), rs, i + 1, 21);
    AllAckedSplit(rs, i, 1, 52);
  }

  /** After a successful initialisation the register values written are
      the documented encodings of the configuration: the period codes
      count 10 ms units from zero, interleaved mode is off and the scaler
      registers are the table value and the scaled offsets. */
  lemma SettingsWritesEncode(s: Settings)
    requires s.Valid()
    ensures var ws := SettingsWrites(s);
      && ws[1] == Write8(Addr(SysalsAnalogueGain), AnalogueGainValues[s.ambientAnalogueGainLevel])
      && ws[4].value16 + 1 == s.ambientIntegrationPeriod && ws[4].value16 <= 255
      && (ws[5].value + 1) * 10 == s.ambientInterMeasurementPeriod
      && (ws[7].value + 1) * 10 == s.rangeInterMeasurementPeriod
      && ws[8].value % 8 == ModeIndex(s.rangeInterruptMode)
      && ws[8].value / 8 == ModeIndex(s.ambientInterruptMode)
      && ws[9].value == (if s.rangeInterruptMode == Disabled && s.ambientInterruptMode == Disabled then 0x20 else 0x30)
      && ws[15] == Write8(Addr(InterleavedModeEnable), 0)
  {
    InterruptConfigDecodes(s.rangeInterruptMode, s.ambientInterruptMode);
  }

  // The operations

  /** `set_range_scaling`. */
  method SetRangeScaling(d: Sensor, scaling: byte) returns (r: Result<()>)
    requires 1 <= scaling <= 3
    modifies d.com
    ensures var e := SetRangeScalingEx(d.config.address, d.config.ptpOffset, scaling, d.com.script, old(|d.com.log|));
      d.com.log == old(d.com.log) + e.trace && r == e.result
  {
    r := d.WriteRegisters(ScalingWrites(d.config.ptpOffset, scaling));
    if r.Err? {
      return;
    }
    var rce := d.ReadRegister(Addr(SysrangeRangeCheckEnables));
    if rce.Err? {
      return Err(BusError);
    }
    r := d.WriteRegister(Addr(SysrangeRangeCheckEnables), RangeCheckEnables(rce.value, scaling));
  }

  /** `set_interrupts`. */
  method SetInterrupts(d: Sensor) returns (r: Result<()>)
    modifies d.com
    ensures var e := RunWrites(d.config.address, InterruptWrites(d.config.Snapshot()), d.com.script, old(|d.com.log|));
      d.com.log == old(d.com.log) + e.trace && r == e.result
    ensures r.Ok? ==> |d.com.log| == old(|d.com.log|) + 6
  {
    r := d.WriteRegisters(InterruptWrites(d.config.Snapshot()));
  }

  /** `set_configuration`. */
  method SetConfiguration(d: Sensor) returns (r: Result<()>)
    requires d.Valid()
    modifies d.com
    ensures var e := SetConfigurationEx(d.config.address, d.config.Snapshot(), d.com.script, old(|d.com.log|));
      d.com.log == old(d.com.log) + e.trace && r == e.result
  {
    var s := d.config.Snapshot();
    ghost var a, rs, i0, log0 := d.config.address, d.com.script, |d.com.log|, d.com.log;
    SetConfigurationGroups(a, s, rs, i0);
    ghost var first := RunWrites(a, ConfigurationWrites(s), rs, i0);
    ghost var second := RunWrites(a, InterruptWrites(s), rs, i0 + 8);
    ghost var third := RunWrites(a, ClosingWrites(s), rs, i0 + 14);
    ghost var scaling := SetRangeScalingEx(a, s.ptpOffset, s.rangeScaling, rs, i0 + 16);
    r := d.WriteRegisters(ConfigurationWrites(s));
    if r.Err? {
      return;
    }
    ghost var log1 := d.com.log;
    r := SetInterrupts(d);
    if r.Err? {
      LogThen(log0, log1, d.com.log, first, Then(second, Then(third, scaling)));
      return;
    }
    ghost var log2 := d.com.log;
    r := d.WriteRegisters(ClosingWrites(s));
    if r.Err? {
      LogThen(log1, log2, d.com.log, second, Then(third, scaling));
      LogThen(log0, log1, d.com.log, first, Then(second, Then(third, scaling)));
      return;
    }
    ghost var log3 := d.com.log;
    r := SetRangeScaling(d, d.config.rangeScaling);
    LogThen(log2, log3, d.com.log, third, scaling);
    LogThen(log1, log2, d.com.log, second, Then(third, scaling));
    LogThen(log0, log1, d.com.log, first, Then(second, Then(third, scaling)));
  }

  /** `init_hardware`: the offset read is stored in the configuration as
      soon as it succeeds, whatever happens next. */
  method InitHardware(d: Sensor) returns (r: Result<()>)
    requires d.Valid()
    modifies d.com, d.config
    ensures d.config.address == old(d.config.address)
    ensures d.config.Snapshot() == InitSettings(d.config.address, old(d.config.Snapshot()), d.com.script, old(|d.com.log|))
    ensures d.Valid()
    ensures var e := InitHardwareEx(d.config.address, old(d.config.Snapshot()), d.com.script, old(|d.com.log|));
      d.com.log == old(d.com.log) + e.trace && r == e.result
  {
    ghost var a, s0, rs, i0, log0 := d.config.address, d.config.Snapshot(), d.com.script, |d.com.log|, d.com.log;
    var ptp := d.ReadRegister(Addr(SysrangePartToPartRangeOffset));
    if ptp.Err? {
      return Err(BusError);
    }
    d.config.ptpOffset := ptp.value;
    assert d.config.Snapshot() == InitSettings(a, s0, rs, i0);
    ghost var log1 := d.com.log;
    r := SendInitSequence(d);
    LogSplice(log0, log1, d.com.log, [ReadFrame(a, Addr(SysrangePartToPartRangeOffset), 1)],
              Then(RunWrites(a, PrivateSettings + [ClearFreshOutOfReset], rs, i0 + 1),
                   SetConfigurationEx(a, d.config.Snapshot(), rs, i0 + 32)));
  }

  /** The part of `init_hardware` after the offset read: the private
      block, clearing SYSTEM__FRESH_OUT_OF_RESET, then `set_configuration`,
      each step only if the previous one succeeded. */
  method SendInitSequence(d: Sensor) returns (r: Result<()>)
    requires d.Valid()
    modifies d.com
    ensures var e := Then(RunWrites(d.config.address, PrivateSettings + [ClearFreshOutOfReset], d.com.script, old(|d.com.log|)),
                          SetConfigurationEx(d.config.address, d.config.Snapshot(), d.com.script, old(|d.com.log|) + 31));
      d.com.log == old(d.com.log) + e.trace && r == e.result
  {
    ghost var a, rs, i0, log0 := d.config.address, d.com.script, |d.com.log|, d.com.log;
    ghost var writes := RunWrites(a, PrivateSettings + [ClearFreshOutOfReset], rs, i0);
    r := d.WriteRegisters(PrivateSettings + [ClearFreshOutOfReset]);
    if r.Err? {
      return;
    }
    ghost var log1 := d.com.log;
    r := SetConfiguration(d);
    LogThen(log0, log1, d.com.log, writes, SetConfigurationEx(a, d.config.Snapshot(), rs, i0 + 31));
  }
}
