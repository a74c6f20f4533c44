/** The driver configuration (src/config.rs): defaults, the validated
    setters and the bounds they derive from other settings. */
module Configuration {
  import opened Bytes
  import opened Errors

  const AddressDefault: byte := 0x29

  /** RANGE_SCALER register values for 1x, 2x and 3x range scaling. */
  const RangeScalarValues: seq<u16> := [0, 253, 127, 84]

  /** SYSALS__ANALOGUE_GAIN codes for gain levels 0..7. */
  const AnalogueGainValues: seq<byte> := [0x46, 0x45, 0x44, 0x43, 0x42, 0x41, 0x40, 0x47]

  /** The five interrupt modes. The range and ambient enums share their
      variants and differ only in the bit field their code occupies. */
  datatype InterruptMode = Disabled | LevelLow | LevelHigh | OutOfWindow | NewSampleReady

  function ModeIndex(m: InterruptMode): nat
  {
    match m
    case Disabled => 0
    case LevelLow => 1
    case LevelHigh => 2
    case OutOfWindow => 3
    case NewSampleReady => 4
  }

  /** `RangeInterruptMode as u8`: bits 2:0. */
  function RangeInterruptCode(m: InterruptMode): byte
  {
    ModeIndex(m)
  }

  /** `AmbientInterruptMode as u8`: bits 5:3. */
  function AmbientInterruptCode(m: InterruptMode): byte
  {
    ModeIndex(m) * 8
  }

  /** A snapshot of every field of `Config`. `ambientScaling` and the four
      interrupt thresholds are read by the initialisation code but have no
      default in this revision of `Config::new`. */
  datatype Settings = Settings(
    ioMode2v8: bool,
    stopVariable: byte,
    measurementTimingBudgetMicroseconds: u32,
    address: byte,
    rangeScaling: byte,
    ptpOffset: byte,
    ioTimeout: u16,
    readoutAveragingPeriodMultiplier: byte,
    rangeMaxConvergenceTime: byte,
    rangeInterMeasurementPeriod: u16,
    rangeVhvRecalibrationRate: byte,
    ambientAnalogueGainLevel: byte,
    ambientIntegrationPeriod: u16,
    ambientInterMeasurementPeriod: u16,
    rangeInterruptMode: InterruptMode,
    ambientInterruptMode: InterruptMode,
    ambientScaling: byte,
    rangeHighInterruptThreshold: byte,
    rangeLowInterruptThreshold: byte,
    ambientHighInterruptThreshold: u16,
    ambientLowInterruptThreshold: u16)
  {
    /** What the defaults satisfy and the (corrected) setters preserve:
        every value the initialisation code encodes is in its range. */
    predicate Valid()
    {
      && 1 <= rangeScaling <= 3
      && 2 <= rangeMaxConvergenceTime <= 63
      && PeriodInRange(rangeInterMeasurementPeriod)
      && ambientAnalogueGainLevel <= 7
      && 1 <= ambientIntegrationPeriod <= 256
      && PeriodInRange(ambientInterMeasurementPeriod)
    }
  }

  /** An inter-measurement period the register can hold: a multiple of
      10 ms between 10 ms and 2550 ms. */
  predicate PeriodInRange(p: int)
  {
    p % 10 == 0 && 10 <= p <= 2550
  }

  /** `Config::new()`, with the values of the fields it does not set given
      as parameters. */
  function Defaults(ambientScaling: byte, rangeHigh: byte, rangeLow: byte, ambientHigh: u16, ambientLow: u16): (s: Settings)
    ensures s.Valid()
    ensures s.address == 0x29 && s.rangeScaling == 1 && s.ioTimeout == 500
    ensures s.rangeInterruptMode == NewSampleReady && s.ambientInterruptMode == NewSampleReady
  {
    Settings(
      ioMode2v8 := true,
      stopVariable := 0,
      measurementTimingBudgetMicroseconds := 0,
      address := AddressDefault,
      rangeScaling := 1,
      ptpOffset := 0,
      ioTimeout := 500,
      readoutAveragingPeriodMultiplier := 48,
      rangeMaxConvergenceTime := 49,
      rangeInterMeasurementPeriod := 100,
      rangeVhvRecalibrationRate := 255,
      ambientAnalogueGainLevel := 6,
      ambientIntegrationPeriod := 100,
      ambientInterMeasurementPeriod := 500,
      rangeInterruptMode := NewSampleReady,
      ambientInterruptMode := NewSampleReady,
      ambientScaling := ambientScaling,
      rangeHighInterruptThreshold := rangeHigh,
      rangeLowInterruptThreshold := rangeLow,
      ambientHighInterruptThreshold := ambientHigh,
      ambientLowInterruptThreshold := ambientLow)
  }

  // Derived minimums. The source computes them in f32 and truncates with
  // `as u16`; the model takes the floor of the exact rational value.

  /** Minimum range period: `max(10, (convergence + 5) / 0.9)` truncated. */
  function RangePeriodMinimum(convergence: nat): nat
  {
    var eq := 10 * (convergence + 5) / 9;
    if 10 < eq then eq else 10
  }

  /** Minimum ambient period as written: `max(10, integration * 1.1 / 0.9)`
      truncated. */
  function AmbientPeriodMinimumAsWritten(integration: nat): nat
  {
    var eq := 11 * integration / 9;
    if 10 < eq then eq else 10
  }

  /** Minimum ambient period as documented: the smallest value `t` with
      `integration * 1.1 <= t * 0.9`, and at least 10. */
  function AmbientPeriodMinimum(integration: nat): (m: nat)
    ensures m >= 10 && 11 * integration <= 9 * m
    ensures m > 10 ==> 9 * (m - 1) < 11 * integration
  {
    var eq := (11 * integration + 8) / 9;
    if 10 < eq then eq else 10
  }

  /** On multiples of 10, the truncated range minimum is exact: a period is
      accepted iff it is at least 10 and satisfies the documented
      inequality `convergence + 5 <= period * 0.9`. */
  lemma {:induction false} RangePeriodMinimumExact(convergence: nat, t: nat)
    requires t % 10 == 0
    ensures t >= RangePeriodMinimum(convergence) <==> t >= 10 && 10 * (convergence + 5) <= 9 * t
  {
    var x := 10 * (convergence + 5);
    var q := x / 9;
    var k := t / 10;
    assert t == 10 * k;
    // Below the documented bound, 9k < convergence + 5, so x >= 90k + 10
    // and the truncated quotient already exceeds t.
    assert 9 * t < x ==> 9 * k + 1 <= convergence + 5;
    assert 9 * t < x ==> 9 * (t + 1) <= x;
  }

  /** The truncated ambient minimum is not exact: with an integration
      period of 17 ms, 20 ms is accepted although 17 * 1.1 > 20 * 0.9. */
  lemma AmbientPeriodMinimumGap()
    ensures 20 >= AmbientPeriodMinimumAsWritten(17) && 9 * 20 < 11 * 17
    ensures 20 < AmbientPeriodMinimum(17)
  {
  }

  /** The documented minimum accepts exactly the periods satisfying the
      documented inequality, and never fewer than the truncated one. */
  lemma {:induction false} AmbientPeriodMinimumExact(integration: nat, t: nat)
    ensures t >= AmbientPeriodMinimum(integration) <==> t >= 10 && 11 * integration <= 9 * t
    ensures AmbientPeriodMinimumAsWritten(integration) <= AmbientPeriodMinimum(integration)
  {
    var m := AmbientPeriodMinimum(integration);
    assert m > 10 && 11 * integration <= 9 * t ==> 9 * (m - 1) < 9 * t;
  }

  /** The interleaved compatibility minimum:
      `((convergence + 5) + integration * 1.1) / 0.9` truncated. */
  function InterleavedMinimum(convergence: nat, integration: nat): nat
  {
    (10 * (convergence + 5) + 11 * integration) / 9
  }

  /** A period passes the interleaved check iff nine periods plus nine
      exceed ten times (convergence + 5) plus eleven times the integration
      period: the truncation admits periods up to 1/0.9 ms below the
      documented inequality. */
  lemma {:induction false} InterleavedMinimumIff(convergence: nat, integration: nat, period: nat)
    ensures period >= InterleavedMinimum(convergence, integration)
        <==> 10 * (convergence + 5) + 11 * integration < 9 * period + 9
  {
    var n := 10 * (convergence + 5) + 11 * integration;
    assert n == 9 * (n / 9) + n % 9;
  }

  /** The outcome of a setter: what it returns and the settings after it. */
  datatype Update = Update(result: Result<()>, settings: Settings)

  /** Rejects with the offending value and changes nothing. */
  function Reject(s: Settings, value: u16): Update
  {
    Update(Err(InvalidConfigurationValue(value)), s)
  }

  /** `set_range_max_convergence_time`. */
  function UpdateRangeMaxConvergenceTime(s: Settings, timeMs: byte): Update
  {
    if timeMs < 2 || timeMs > 63 then Reject(s, timeMs)
    else Update(Ok(()), s.(rangeMaxConvergenceTime := timeMs))
  }

  /** `set_range_inter_measurement_period`: the minimum uses the convergence
      time current at the call. */
  function UpdateRangeInterMeasurementPeriod(s: Settings, timeMs: u16): Update
  {
    if timeMs % 10 != 0 || timeMs < RangePeriodMinimum(s.rangeMaxConvergenceTime) || timeMs > 2550
    then Reject(s, timeMs)
    else Update(Ok(()), s.(rangeInterMeasurementPeriod := timeMs))
  }

  /** `set_ambient_analogue_gain_level`. */
  function UpdateAmbientAnalogueGainLevel(s: Settings, level: byte): Update
  {
    if level > 7 then Reject(s, level)
    else Update(Ok(()), s.(ambientAnalogueGainLevel := level))
  }

  /** `set_ambient_integration_period`. */
  function UpdateAmbientIntegrationPeriod(s: Settings, timeMs: u16): Update
  {
    if timeMs < 1 || timeMs > 256 then Reject(s, timeMs)
    else Update(Ok(()), s.(ambientIntegrationPeriod := timeMs))
  }

  /** `set_ambient_inter_measurement_period` as written: maximum 2560, and
      the accepted value is stored into the RANGE period. */
  function UpdateAmbientInterMeasurementPeriodAsWritten(s: Settings, timeMs: u16): Update
  {
    if timeMs % 10 != 0 || timeMs < AmbientPeriodMinimumAsWritten(s.ambientIntegrationPeriod) || timeMs > 2560
    then Reject(s, timeMs)
    else Update(Ok(()), s.(rangeInterMeasurementPeriod := timeMs))
  }

  /** `set_ambient_inter_measurement_period` as documented: the documented
      minimum, maximum 2550, stored into the ambient period. */
  function UpdateAmbientInterMeasurementPeriod(s: Settings, timeMs: u16): Update
  {
    if timeMs % 10 != 0 || timeMs < AmbientPeriodMinimum(s.ambientIntegrationPeriod) || timeMs > 2550
    then Reject(s, timeMs)
    else Update(Ok(()), s.(ambientInterMeasurementPeriod := timeMs))
  }

  /** Every validated setter accepts exactly its documented range; a
      rejection returns the offending value and changes no setting; an
      acceptance changes only the setter's own field. */
  lemma SetterContracts(s: Settings, t8: byte, t16: u16)
    ensures var u := UpdateRangeMaxConvergenceTime(s, t8);
      && (u.result.Ok? <==> 2 <= t8 <= 63)
      && (u.result.Err? ==> u == Reject(s, t8))
      && (u.result.Ok? ==> u.settings == s.(rangeMaxConvergenceTime := t8))
    ensures var u := UpdateRangeInterMeasurementPeriod(s, t16);
      && (u.result.Ok? <==> t16 % 10 == 0 && 10 * (s.rangeMaxConvergenceTime + 5) <= 9 * t16 && 10 <= t16 <= 2550)
      && (u.result.Err? ==> u == Reject(s, t16))
      && (u.result.Ok? ==> u.settings == s.(rangeInterMeasurementPeriod := t16))
    ensures var u := UpdateAmbientAnalogueGainLevel(s, t8);
      && (u.result.Ok? <==> t8 <= 7)
      && (u.result.Err? ==> u == Reject(s, t8))
      && (u.result.Ok? ==> u.settings == s.(ambientAnalogueGainLevel := t8))
    ensures var u := UpdateAmbientIntegrationPeriod(s, t16);
      && (u.result.Ok? <==> 1 <= t16 <= 256)
      && (u.result.Err? ==> u == Reject(s, t16))
      && (u.result.Ok? ==> u.settings == s.(ambientIntegrationPeriod := t16))
    ensures var u := UpdateAmbientInterMeasurementPeriod(s, t16);
      && (u.result.Ok? <==> t16 % 10 == 0 && 11 * s.ambientIntegrationPeriod <= 9 * t16 && 10 <= t16 <= 2550)
      && (u.result.Err? ==> u == Reject(s, t16))
      && (u.result.Ok? ==> u.settings == s.(ambientInterMeasurementPeriod := t16))
  {
    if t16 % 10 == 0 {
      RangePeriodMinimumExact(s.rangeMaxConvergenceTime, t16);
    }
    AmbientPeriodMinimumExact(s.ambientIntegrationPeriod, t16);
  }

  /** The documented setters keep the configuration valid. */
  lemma SettersKeepValid(s: Settings, t8: byte, t16: u16)
    requires s.Valid()
    ensures UpdateRangeMaxConvergenceTime(s, t8).settings.Valid()
    ensures UpdateRangeInterMeasurementPeriod(s, t16).settings.Valid()
    ensures UpdateAmbientAnalogueGainLevel(s, t8).settings.Valid()
    ensures UpdateAmbientIntegrationPeriod(s, t16).settings.Valid()
    ensures UpdateAmbientInterMeasurementPeriod(s, t16).settings.Valid()
  {
  }

  /** The setter as written never changes the ambient period: an accepted
      value overwrites the range period instead. */
  lemma AmbientSetterAsWrittenWrongField(s: Settings, t: u16)
    ensures UpdateAmbientInterMeasurementPeriodAsWritten(s, t).settings.ambientInterMeasurementPeriod
         == s.ambientInterMeasurementPeriod
    ensures var u := UpdateAmbientInterMeasurementPeriodAsWritten(s, t);
      u.result.Ok? ==> u.settings.rangeInterMeasurementPeriod == t
  {
  }

  /** Concretely: on the defaults, setting the ambient period to 1000 ms
      succeeds, leaves it at 500 ms and sets the range period to 1000 ms;
      and 2560 ms is accepted, leaving a range period outside what the
      register can encode. The documented setter rejects 2560. */
  lemma AmbientSetterAsWrittenExamples(x: byte, y: byte, z: byte, v: u16, w: u16)
    ensures var u := UpdateAmbientInterMeasurementPeriodAsWritten(Defaults(x, y, z, v, w), 1000);
      u.result.Ok? && u.settings.ambientInterMeasurementPeriod == 500 && u.settings.rangeInterMeasurementPeriod == 1000
    ensures var u := UpdateAmbientInterMeasurementPeriodAsWritten(Defaults(x, y, z, v, w), 2560);
      u.result.Ok? && !u.settings.Valid() && u.settings.rangeInterMeasurementPeriod == 2560
    ensures UpdateAmbientInterMeasurementPeriod(Defaults(x, y, z, v, w), 1000).settings.ambientInterMeasurementPeriod == 1000
    ensures UpdateAmbientInterMeasurementPeriod(Defaults(x, y, z, v, w), 2560).result.Err?
  {
  }

  /** `Config`: the settings a driver owns. Setters update one field in
      place after validating; a rejected call returns before assigning. */
  class Config {
    var ioMode2v8: bool
    var stopVariable: byte
    var measurementTimingBudgetMicroseconds: u32
    var address: byte
    var rangeScaling: byte
    var ptpOffset: byte
    var ioTimeout: u16
    var readoutAveragingPeriodMultiplier: byte
    var rangeMaxConvergenceTime: byte
    var rangeInterMeasurementPeriod: u16
    var rangeVhvRecalibrationRate: byte
    var ambientAnalogueGainLevel: byte
    var ambientIntegrationPeriod: u16
    var ambientInterMeasurementPeriod: u16
    var rangeInterruptMode: InterruptMode
    var ambientInterruptMode: InterruptMode
    var ambientScaling: byte
    var rangeHighInterruptThreshold: byte
    var rangeLowInterruptThreshold: byte
    var ambientHighInterruptThreshold: u16
    var ambientLowInterruptThreshold: u16

    function Snapshot(): Settings
      reads this
    {
      Settings(ioMode2v8, stopVariable, measurementTimingBudgetMicroseconds, address, rangeScaling,
               ptpOffset, ioTimeout, readoutAveragingPeriodMultiplier, rangeMaxConvergenceTime,
               rangeInterMeasurementPeriod, rangeVhvRecalibrationRate, ambientAnalogueGainLevel,
               ambientIntegrationPeriod, ambientInterMeasurementPeriod, rangeInterruptMode,
               ambientInterruptMode, ambientScaling, rangeHighInterruptThreshold,
               rangeLowInterruptThreshold, ambientHighInterruptThreshold, ambientLowInterruptThreshold)
    }

    /** `Config::new()`. */
    constructor New(ambientScaling: byte, rangeHigh: byte, rangeLow: byte, ambientHigh: u16, ambientLow: u16)
      ensures Snapshot() == Defaults(ambientScaling, rangeHigh, rangeLow, ambientHigh, ambientLow)
    {
      var d := Defaults(ambientScaling, rangeHigh, rangeLow, ambientHigh, ambientLow);
      this.ioMode2v8 := d.ioMode2v8;
      this.stopVariable := d.stopVariable;
      this.measurementTimingBudgetMicroseconds := d.measurementTimingBudgetMicroseconds;
      this.address := d.address;
      this.rangeScaling := d.rangeScaling;
      this.ptpOffset := d.ptpOffset;
      this.ioTimeout := d.ioTimeout;
      this.readoutAveragingPeriodMultiplier := d.readoutAveragingPeriodMultiplier;
      this.rangeMaxConvergenceTime := d.rangeMaxConvergenceTime;
      this.rangeInterMeasurementPeriod := d.rangeInterMeasurementPeriod;
      this.rangeVhvRecalibrationRate := d.rangeVhvRecalibrationRate;
      this.ambientAnalogueGainLevel := d.ambientAnalogueGainLevel;
      this.ambientIntegrationPeriod := d.ambientIntegrationPeriod;
      this.ambientInterMeasurementPeriod := d.ambientInterMeasurementPeriod;
      this.rangeInterruptMode := d.rangeInterruptMode;
      this.ambientInterruptMode := d.ambientInterruptMode;
      this.ambientScaling := d.ambientScaling;
      this.rangeHighInterruptThreshold := d.rangeHighInterruptThreshold;
      this.rangeLowInterruptThreshold := d.rangeLowInterruptThreshold;
      this.ambientHighInterruptThreshold := d.ambientHighInterruptThreshold;
      this.ambientLowInterruptThreshold := d.ambientLowInterruptThreshold;
    }

    /** `config.clone()`. */
    constructor Copy(other: Config)
      ensures Snapshot() == other.Snapshot()
    {
      var d := other.Snapshot();
      this.ioMode2v8 := d.ioMode2v8;
      this.stopVariable := d.stopVariable;
      this.measurementTimingBudgetMicroseconds := d.measurementTimingBudgetMicroseconds;
      this.address := d.address;
      this.rangeScaling := d.rangeScaling;
      this.ptpOffset := d.ptpOffset;
      this.ioTimeout := d.ioTimeout;
      this.readoutAveragingPeriodMultiplier := d.readoutAveragingPeriodMultiplier;
      this.rangeMaxConvergenceTime := d.rangeMaxConvergenceTime;
      this.rangeInterMeasurementPeriod := d.rangeInterMeasurementPeriod;
      this.rangeVhvRecalibrationRate := d.rangeVhvRecalibrationRate;
      this.ambientAnalogueGainLevel := d.ambientAnalogueGainLevel;
      this.ambientIntegrationPeriod := d.ambientIntegrationPeriod;
      this.ambientInterMeasurementPeriod := d.ambientInterMeasurementPeriod;
      this.rangeInterruptMode := d.rangeInterruptMode;
      this.ambientInterruptMode := d.ambientInterruptMode;
      this.ambientScaling := d.ambientScaling;
      this.rangeHighInterruptThreshold := d.rangeHighInterruptThreshold;
      this.rangeLowInterruptThreshold := d.rangeLowInterruptThreshold;
      this.ambientHighInterruptThreshold := d.ambientHighInterruptThreshold;
      this.ambientLowInterruptThreshold := d.ambientLowInterruptThreshold;
    }

    method SetRangeMaxConvergenceTime(timeMs: byte) returns (r: Result<()>)
      modifies this
      ensures Update(r, Snapshot()) == UpdateRangeMaxConvergenceTime(old(Snapshot()), timeMs)
    {
      if timeMs < 2 || timeMs > 63 {
        return Err(InvalidConfigurationValue(timeMs));
      }
      rangeMaxConvergenceTime := timeMs;
      return Ok(());
    }

    method SetRangeInterMeasurementPeriod(timeMs: u16) returns (r: Result<()>)
      modifies this
      ensures Update(r, Snapshot()) == UpdateRangeInterMeasurementPeriod(old(Snapshot()), timeMs)
    {
      var min := RangePeriodMinimum(rangeMaxConvergenceTime);
      if timeMs % 10 != 0 || timeMs < min || timeMs > 2550 {
        return Err(InvalidConfigurationValue(timeMs));
      }
      rangeInterMeasurementPeriod := timeMs;
      return Ok(());
    }

    /** Always succeeds and changes only its own field. */
    method SetReadoutAveragingPeriodMultiplier(multiplier: byte) returns (r: Result<()>)
      modifies this
      ensures r.Ok? && Snapshot() == old(Snapshot()).(readoutAveragingPeriodMultiplier := multiplier)
    {
      readoutAveragingPeriodMultiplier := multiplier;
      return Ok(());
    }

    /** Despite its name, sets the range VHV recalibration rate. */
    method AmbientIntegrationPeriod(rateVhv: byte)
      modifies this
      ensures Snapshot() == old(Snapshot()).(rangeVhvRecalibrationRate := rateVhv)
    {
      rangeVhvRecalibrationRate := rateVhv;
    }

    method SetAmbientAnalogueGainLevel(level: byte) returns (r: Result<()>)
      modifies this
      ensures Update(r, Snapshot()) == UpdateAmbientAnalogueGainLevel(old(Snapshot()), level)
    {
      if level > 7 {
        return Err(InvalidConfigurationValue(level));
      }
      ambientAnalogueGainLevel := level;
      return Ok(());
    }

    method SetAmbientIntegrationPeriod(timeMs: u16) returns (r: Result<()>)
      modifies this
      ensures Update(r, Snapshot()) == UpdateAmbientIntegrationPeriod(old(Snapshot()), timeMs)
    {
      if timeMs < 1 || timeMs > 256 {
        return Err(InvalidConfigurationValue(timeMs));
      }
      ambientIntegrationPeriod := timeMs;
      return Ok(());
    }

    method SetAmbientInterMeasurementPeriodAsWritten(timeMs: u16) returns (r: Result<()>)
      modifies this
      ensures Update(r, Snapshot()) == UpdateAmbientInterMeasurementPeriodAsWritten(old(Snapshot()), timeMs)
    {
      var min := AmbientPeriodMinimumAsWritten(ambientIntegrationPeriod);
      if timeMs % 10 != 0 || timeMs < min || timeMs > 2560 {
        return Err(InvalidConfigurationValue(timeMs));
      }
      rangeInterMeasurementPeriod := timeMs;
      return Ok(());
    }

    method SetAmbientInterMeasurementPeriod(timeMs: u16) returns (r: Result<()>)
      modifies this
      ensures Update(r, Snapshot()) == UpdateAmbientInterMeasurementPeriod(old(Snapshot()), timeMs)
    {
      var min := AmbientPeriodMinimum(ambientIntegrationPeriod);
      if timeMs % 10 != 0 || timeMs < min || timeMs > 2550 {
        return Err(InvalidConfigurationValue(timeMs));
      }
      ambientInterMeasurementPeriod := timeMs;
      return Ok(());
    }

    /** Always succeeds and changes only its own field. */
    method SetRangeInterruptMode(mode: InterruptMode)
      modifies this
      ensures Snapshot() == old(Snapshot()).(rangeInterruptMode := mode)
    {
      rangeInterruptMode := mode;
    }

    /** Always succeeds and changes only its own field. */
    method SetAmbientInterruptMode(mode: InterruptMode)
      modifies this
      ensures Snapshot() == old(Snapshot()).(ambientInterruptMode := mode)
    {
      ambientInterruptMode := mode;
    }
  }
}
