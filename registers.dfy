/** The register address map of the sensor (src/register.rs) and the command
    codes the driver writes into those registers. */
module Registers {
  import opened Bytes
  import opened Optional

  /** Every named register. All but `RangeScaler` are the variants of the
      `Register` enum; `RangeScaler` is the 16-bit scaler register that
      init.rs writes through a second, 16-bit register table. */
  datatype Register =
    | IdentificationModelId
    | IdentificationModelRevMajor
    | IdentificationModelRevMinor
    | IdentificationModuleRevMajor
    | IdentificationModuleRevMinor
    | IdentificationDateHi
    | IdentificationDateLo
    | IdentificationTime1
    | IdentificationTime2
    | SystemModeGpio0
    | SystemModeGpio1
    | SystemHistoryCtrl
    | SystemInterruptConfigGpio
    | SystemInterruptClear
    | SystemFreshOutOfReset
    | SystemGroupedParameterHold
    | SysrangeStart
    | SysrangeThreshHigh
    | SysrangeThreshLow
    | SysrangeIntermeasurementPeriod
    | SysrangeMaxConvergenceTime
    | SysrangeCrosstalkCompensationRate
    | SysrangeCrosstalkValidHeight
    | SysrangeEarlyConvergenceEstimate
    | SysrangePartToPartRangeOffset
    | SysrangeRangeIgnoreValidHeight
    | SysrangeRangeIgnoreThreshold
    | SysrangeMaxAmbientLevelMult
    | SysrangeRangeCheckEnables
    | SysrangeVhvRecalibrate
    | SysrangeVhvRepeatRate
    | SysalsStart
    | SysalsThreshHigh
    | SysalsThreshLow
    | SysalsIntermeasurementPeriod
    | SysalsAnalogueGain
    | SysalsIntegrationPeriod
    | ResultRangeStatus
    | ResultAlsStatus
    | ResultInterruptStatusGpio
    | ResultAlsVal
    | ResultHistoryBuffer0
    | ResultHistoryBuffer1
    | ResultHistoryBuffer2
    | ResultHistoryBuffer3
    | ResultHistoryBuffer4
    | ResultHistoryBuffer5
    | ResultHistoryBuffer6
    | ResultHistoryBuffer7
    | ResultRangeVal
    | ResultRangeRaw
    | ResultRangeReturnRate
    | ResultRangeReferenceRate
    | ResultRangeReturnSignalCount
    | ResultRangeReferenceSignalCount
    | ResultRangeReturnAmbCount
    | ResultRangeReferenceAmbCount
    | ResultRangeReturnConvTime
    | ResultRangeReferenceConvTime
    | ReadoutAveragingSamplePeriod
    | FirmwareBootup
    | FirmwareResultScaler
    | I2cSlaveDeviceAddress
    | InterleavedModeEnable
    | RangeScaler

  /** The register's discriminant, i.e. its 16-bit address. */
  function Addr(r: Register): u16
  {
    match r
    case IdentificationModelId => 0x000
    case IdentificationModelRevMajor => 0x001
    case IdentificationModelRevMinor => 0x002
    case IdentificationModuleRevMajor => 0x003
    case IdentificationModuleRevMinor => 0x004
    case IdentificationDateHi => 0x006
    case IdentificationDateLo => 0x007
    case IdentificationTime1 => 0x008
    case IdentificationTime2 => 0x009
    case SystemModeGpio0 => 0x010
    case SystemModeGpio1 => 0x011
    case SystemHistoryCtrl => 0x012
    case SystemInterruptConfigGpio => 0x014
    case SystemInterruptClear => 0x015
    case SystemFreshOutOfReset => 0x016
    case SystemGroupedParameterHold => 0x017
    case SysrangeStart => 0x018
    case SysrangeThreshHigh => 0x019
    case SysrangeThreshLow => 0x01A
    case SysrangeIntermeasurementPeriod => 0x01B
    case SysrangeMaxConvergenceTime => 0x01C
    case SysrangeCrosstalkCompensationRate => 0x01E
    case SysrangeCrosstalkValidHeight => 0x021
    case SysrangeEarlyConvergenceEstimate => 0x022
    case SysrangePartToPartRangeOffset => 0x024
    case SysrangeRangeIgnoreValidHeight => 0x025
    case SysrangeRangeIgnoreThreshold => 0x026
    case SysrangeMaxAmbientLevelMult => 0x02C
    case SysrangeRangeCheckEnables => 0x02D
    case SysrangeVhvRecalibrate => 0x02E
    case SysrangeVhvRepeatRate => 0x031
    case SysalsStart => 0x038
    case SysalsThreshHigh => 0x03A
    case SysalsThreshLow => 0x03C
    case SysalsIntermeasurementPeriod => 0x03E
    case SysalsAnalogueGain => 0x03F
    case SysalsIntegrationPeriod => 0x040
    case ResultRangeStatus => 0x04D
    case ResultAlsStatus => 0x04E
    case ResultInterruptStatusGpio => 0x04F
    case ResultAlsVal => 0x050
    case ResultHistoryBuffer0 => 0x052
    case ResultHistoryBuffer1 => 0x053
    case ResultHistoryBuffer2 => 0x054
    case ResultHistoryBuffer3 => 0x055
    case ResultHistoryBuffer4 => 0x056
    case ResultHistoryBuffer5 => 0x057
    case ResultHistoryBuffer6 => 0x058
    case ResultHistoryBuffer7 => 0x059
    case ResultRangeVal => 0x062
    case ResultRangeRaw => 0x064
    case ResultRangeReturnRate => 0x066
    case ResultRangeReferenceRate => 0x068
    case ResultRangeReturnSignalCount => 0x06C
    case ResultRangeReferenceSignalCount => 0x070
    case ResultRangeReturnAmbCount => 0x074
    case ResultRangeReferenceAmbCount => 0x078
    case ResultRangeReturnConvTime => 0x07C
    case ResultRangeReferenceConvTime => 0x080
    case ReadoutAveragingSamplePeriod => 0x10A
    case FirmwareBootup => 0x119
    case FirmwareResultScaler => 0x120
    case I2cSlaveDeviceAddress => 0x212
    case InterleavedModeEnable => 0x2A3
    case RangeScaler => 0x096
  }

  /** Inverse of `Addr`: which register, if any, has address `a`. The
      lookup is split by address range. */
  function FromAddr(a: int): Option<Register>
  {
    if a < 0x020 then FromSystemAddr(a)
    else if a < 0x050 then FromSetupAddr(a)
    else if a < 0x0A0 then FromResultAddr(a)
    else FromFirmwareAddr(a)
  }

  function FromSystemAddr(a: int): Option<Register>
  {
    match a
    case 0x000 => Some(IdentificationModelId)
    case 0x001 => Some(IdentificationModelRevMajor)
    case 0x002 => Some(IdentificationModelRevMinor)
    case 0x003 => Some(IdentificationModuleRevMajor)
    case 0x004 => Some(IdentificationModuleRevMinor)
    case 0x006 => Some(IdentificationDateHi)
    case 0x007 => Some(IdentificationDateLo)
    case 0x008 => Some(IdentificationTime1)
    case 0x009 => Some(IdentificationTime2)
    case 0x010 => Some(SystemModeGpio0)
    case 0x011 => Some(SystemModeGpio1)
    case 0x012 => Some(SystemHistoryCtrl)
    case 0x014 => Some(SystemInterruptConfigGpio)
    case 0x015 => Some(SystemInterruptClear)
    case 0x016 => Some(SystemFreshOutOfReset)
    case 0x017 => Some(SystemGroupedParameterHold)
    case 0x018 => Some(SysrangeStart)
    case 0x019 => Some(SysrangeThreshHigh)
    case 0x01A => Some(SysrangeThreshLow)
    case 0x01B => Some(SysrangeIntermeasurementPeriod)
    case 0x01C => Some(SysrangeMaxConvergenceTime)
    case 0x01E => Some(SysrangeCrosstalkCompensationRate)
    case _ => None
  }

  function FromSetupAddr(a: int): Option<Register>
  {
    match a
    case 0x021 => Some(SysrangeCrosstalkValidHeight)
    case 0x022 => Some(SysrangeEarlyConvergenceEstimate)
    case 0x024 => Some(SysrangePartToPartRangeOffset)
    case 0x025 => Some(SysrangeRangeIgnoreValidHeight)
    case 0x026 => Some(SysrangeRangeIgnoreThreshold)
    case 0x02C => Some(SysrangeMaxAmbientLevelMult)
    case 0x02D => Some(SysrangeRangeCheckEnables)
    case 0x02E => Some(SysrangeVhvRecalibrate)
    case 0x031 => Some(SysrangeVhvRepeatRate)
    case 0x038 => Some(SysalsStart)
    case 0x03A => Some(SysalsThreshHigh)
    case 0x03C => Some(SysalsThreshLow)
    case 0x03E => Some(SysalsIntermeasurementPeriod)
    case 0x03F => Some(SysalsAnalogueGain)
    case 0x040 => Some(SysalsIntegrationPeriod)
    case 0x04D => Some(ResultRangeStatus)
    case 0x04E => Some(ResultAlsStatus)
    case 0x04F => Some(ResultInterruptStatusGpio)
    case _ => None
  }

  function FromResultAddr(a: int): Option<Register>
  {
    match a
    case 0x050 => Some(ResultAlsVal)
    case 0x052 => Some(ResultHistoryBuffer0)
    case 0x053 => Some(ResultHistoryBuffer1)
    case 0x054 => Some(ResultHistoryBuffer2)
    case 0x055 => Some(ResultHistoryBuffer3)
    case 0x056 => Some(ResultHistoryBuffer4)
    case 0x057 => Some(ResultHistoryBuffer5)
    case 0x058 => Some(ResultHistoryBuffer6)
    case 0x059 => Some(ResultHistoryBuffer7)
    case 0x062 => Some(ResultRangeVal)
    case 0x064 => Some(ResultRangeRaw)
    case 0x066 => Some(ResultRangeReturnRate)
    case 0x068 => Some(ResultRangeReferenceRate)
    case 0x06C => Some(ResultRangeReturnSignalCount)
    case 0x070 => Some(ResultRangeReferenceSignalCount)
    case 0x074 => Some(ResultRangeReturnAmbCount)
    case 0x078 => Some(ResultRangeReferenceAmbCount)
    case 0x07C => Some(ResultRangeReturnConvTime)
    case 0x080 => Some(ResultRangeReferenceConvTime)
    case 0x096 => Some(RangeScaler)
    case _ => None
  }

  function FromFirmwareAddr(a: int): Option<Register>
  {
    match a
    case 0x10A => Some(ReadoutAveragingSamplePeriod)
    case 0x119 => Some(FirmwareBootup)
    case 0x120 => Some(FirmwareResultScaler)
    case 0x212 => Some(I2cSlaveDeviceAddress)
    case 0x2A3 => Some(InterleavedModeEnable)
    case _ => None
  }

  /** `Register::addr`: `[((val & 0xFF00) >> 8) as u8, (val & 0x00FF) as u8]`.
      On a 16-bit value, masking with 0xFF00 clears the low byte
      (`val - val % 0x100`), `>> 8` divides by 0x100 and masking with 0x00FF
      keeps the low byte (`val % 0x100`). */
  function AddrBytes(r: Register): (b: seq<byte>)
    ensures |b| == 2
  {
    var val := Addr(r);
    var highMasked := val - val % 0x100;
    [highMasked / 0x100, val % 0x100]
  }

  /** `addr()[0] == val >> 8`, `addr()[1] == val & 0xFF`, and the pair is
      exactly the `to_be_bytes()` framing used on the bus. */
  lemma AddrBytesIsBigEndian(r: Register)
    ensures AddrBytes(r) == U16ToBe(Addr(r))
    ensures AddrBytes(r)[0] == Addr(r) / 0x100 && AddrBytes(r)[1] == Addr(r) % 0x100
  {
  }

  /** `256 * addr()[0] + addr()[1] == val`: `addr()` loses nothing. */
  lemma AddrBytesRoundTrip(r: Register)
    ensures U16FromBe(AddrBytes(r)) == Addr(r)
    ensures 256 * (AddrBytes(r)[0] as int) + AddrBytes(r)[1] == Addr(r)
  {
    AddrBytesIsBigEndian(r);
  }

  /** Every discriminant is at most 0x2A3, so the high address byte is at most 2. */
  lemma AddrBound(r: Register)
    ensures Addr(r) <= 0x2A3
    ensures AddrBytes(r)[0] <= 0x02
  {
    AddrBytesIsBigEndian(r);
  }

  /** `FromAddr` inverts `Addr`, so no two registers share an address. */
  lemma AddrInverse(r: Register)
    ensures FromAddr(Addr(r)) == Some(r)
  {
    if Addr(r) < 0x020 {
      SystemAddrInverse(r);
    } else if Addr(r) < 0x050 {
      SetupAddrInverse(r);
    } else if Addr(r) < 0x0A0 {
      ResultAddrInverse(r);
    } else {
      FirmwareAddrInverse(r);
    }
  }

  // One lemma per address range: each decoder only has to be checked
  // against the registers that lie in its range.

  lemma SystemAddrInverse(r: Register)
    requires Addr(r) < 0x020
    ensures FromSystemAddr(Addr(r)) == Some(r)
  {
  }

  lemma SetupAddrInverse(r: Register)
    requires 0x020 <= Addr(r) < 0x050
    ensures FromSetupAddr(Addr(r)) == Some(r)
  {
  }

  lemma ResultAddrInverse(r: Register)
    requires 0x050 <= Addr(r) < 0x0A0
    ensures FromResultAddr(Addr(r)) == Some(r)
  {
  }

  lemma FirmwareAddrInverse(r: Register)
    requires 0x0A0 <= Addr(r)
    ensures FromFirmwareAddr(Addr(r)) == Some(r)
  {
  }

  lemma AddrInjective(r1: Register, r2: Register)
    ensures Addr(r1) == Addr(r2) ==> r1 == r2
  {
    AddrInverse(r1);
    AddrInverse(r2);
  }

  // Command codes written by the driver (the code enums of the register
  // table; numeric values from the sensor's register map).

  /** `SysRangeStartCode` / `SysAmbientStartCode`: bit 0 starts or stops,
      bit 1 selects continuous mode. */
  const SingleStart: byte := 0x01
  const ContinuousStartOrStop: byte := 0x03

  /** `SysInterruptClearCode`: one bit per interrupt source. */
  const ClearRange: byte := 0x01
  const ClearAmbient: byte := 0x02
  const ClearError: byte := 0x04

  /** `InterleavedModeEnableCode`. */
  const InterleavedEnable: byte := 0x01
  const InterleavedDisable: byte := 0x00

  /** `SysModeGpio1Polarity::ActiveHigh` and `SysModeGpio1Select`. */
  const Gpio1ActiveHigh: byte := 0x20
  const Gpio1InterruptOutput: byte := 0x10
  const Gpio1Off: byte := 0x00
}
