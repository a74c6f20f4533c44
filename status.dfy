/** Decoding of the sensor's status registers: the interrupt-status byte
    (`ResultInterruptStatusGpioCode::has_status`) and the range and ambient
    status nibbles (`RangeStatusErrorCode` / `AmbientStatusErrorCode`
    `try_from`). Their behaviour is pinned down by
    src/register/register_tests.rs. */
module Status {
  import opened Bytes
  import opened Optional

  /** The conditions `has_status` can test on RESULT__INTERRUPT_STATUS_GPIO.
      The byte holds three fields: error in bits 7:6, ambient events in
      bits 5:3 and range events in bits 2:0. */
  datatype InterruptStatus =
    | NoError | LaserSafetyError | PllError
    | NoAmbientEvents | LevelLowAmbientEvent | LevelHighAmbientEvent
    | OutOfWindowAmbientEvent | NewSampleReadyAmbientEvent
    | NoRangeEvents | LevelLowRangeEvent | LevelHighRangeEvent
    | OutOfWindowRangeEvent | NewSampleReadyRangeEvent

  datatype Field = ErrorBits | AmbientBits | RangeBits

  function FieldOf(k: InterruptStatus): Field
  {
    match k
    case NoError | LaserSafetyError | PllError => ErrorBits
    case NoAmbientEvents | LevelLowAmbientEvent | LevelHighAmbientEvent
       | OutOfWindowAmbientEvent | NewSampleReadyAmbientEvent => AmbientBits
    case _ => RangeBits
  }

  /** The value the field takes when condition `k` holds. */
  function FieldCode(k: InterruptStatus): nat
  {
    match k
    case NoError | NoAmbientEvents | NoRangeEvents => 0
    case LaserSafetyError | LevelLowAmbientEvent | LevelLowRangeEvent => 1
    case PllError | LevelHighAmbientEvent | LevelHighRangeEvent => 2
    case OutOfWindowAmbientEvent | OutOfWindowRangeEvent => 3
    case NewSampleReadyAmbientEvent | NewSampleReadyRangeEvent => 4
  }

  /** Extracts one field of an interrupt-status byte. */
  function FieldValue(f: Field, b: byte): nat
  {
    match f
    case ErrorBits => b / 64
    case AmbientBits => (b / 8) % 8
    case RangeBits => b % 8
  }

  /** `has_status(k, b)`: the field that `k` is about holds `k`'s code. */
  predicate HasStatus(k: InterruptStatus, b: byte)
  {
    FieldValue(FieldOf(k), b) == FieldCode(k)
  }

  /** The byte with the given error, ambient and range fields. */
  function StatusByte(err: nat, ambient: nat, range: nat): byte
    requires err < 4 && ambient < 8 && range < 8
  {
    err * 64 + ambient * 8 + range
  }

  /** The three fields are independent: composing a byte from three field
      values and reading each field back gives those values. */
  lemma {:induction false} FieldsRoundTrip(err: nat, ambient: nat, range: nat)
    requires err < 4 && ambient < 8 && range < 8
    ensures FieldValue(ErrorBits, StatusByte(err, ambient, range)) == err
    ensures FieldValue(AmbientBits, StatusByte(err, ambient, range)) == ambient
    ensures FieldValue(RangeBits, StatusByte(err, ambient, range)) == range
  {
    var b := StatusByte(err, ambient, range);
    assert b == (err * 8 + ambient) * 8 + range;
    assert b / 8 == err * 8 + ambient;
    assert b / 64 == (b / 8) / 8;
  }

  /** A condition depends only on its own field: changing the other two
      fields of the byte never changes the answer. */
  lemma {:induction false} HasStatusOnlyReadsItsField(k: InterruptStatus, err: nat, ambient: nat, range: nat,
                                                      err': nat, ambient': nat, range': nat)
    requires err < 4 && ambient < 8 && range < 8
    requires err' < 4 && ambient' < 8 && range' < 8
    requires FieldOf(k) == ErrorBits ==> err == err'
    requires FieldOf(k) == AmbientBits ==> ambient == ambient'
    requires FieldOf(k) == RangeBits ==> range == range'
    ensures HasStatus(k, StatusByte(err, ambient, range)) == HasStatus(k, StatusByte(err', ambient', range'))
  {
    FieldsRoundTrip(err, ambient, range);
    FieldsRoundTrip(err', ambient', range');
  }

  /** A "no events" condition holds exactly when its field is all zeros. */
  lemma NoEventsIffFieldZero(b: byte)
    ensures HasStatus(NoRangeEvents, b) <==> b % 8 == 0
    ensures HasStatus(NoAmbientEvents, b) <==> (b / 8) % 8 == 0
    ensures HasStatus(NoError, b) <==> b < 64
  {
  }

  // The assertions of src/register/register_tests.rs, as lemmas.

  lemma InterruptErrorTests()
    ensures !HasStatus(NoError, 0xC2)   // 0b11_000_010
    ensures HasStatus(NoError, 0x09)    // 0b00_001_001
  {
  }

  lemma InterruptAmbientTests()
    ensures HasStatus(NoAmbientEvents, 0x01)   // 0b00_000_001
    ensures !HasStatus(NoAmbientEvents, 0x09)  // 0b00_001_001
  {
  }

  lemma InterruptRangeTests()
    ensures HasStatus(NoRangeEvents, 0x00)    // 0b00_000_000
    ensures !HasStatus(NoRangeEvents, 0x02)   // 0b00_000_010
  {
  }

  lemma InterruptAmbientLevelTests()
    ensures HasStatus(LevelHighAmbientEvent, 0x17)  // 0b00_010_111
    ensures HasStatus(LevelLowAmbientEvent, 0x8F)   // 0b10_001_111
  {
  }

  /** Range measurement error codes (upper nibble of RESULT__RANGE_STATUS). */
  datatype RangeStatusCode =
    | RangeNoError | VcselContinuityTest | VcselWatchdogTest | VcselWatchdog
    | Pll1Lock | Pll2Lock | EarlyConvergenceEstimate | MaxConvergence | RangeIgnore
    | MaxSignalToNoiseRatio | RawRangingAlgoUnderflow | RawRangingAlgoOverflow
    | RangingAlgoUnderflow | RangingAlgoOverflow

  /** Ambient measurement error codes (upper nibble of RESULT__ALS_STATUS). */
  datatype AmbientStatusCode = AmbientNoError | Overflow | Underflow

  /** The discriminant of each range code; 9 and 10 are not used. */
  function RangeCode(c: RangeStatusCode): nat
  {
    match c
    case RangeNoError => 0
    case VcselContinuityTest => 1
    case VcselWatchdogTest => 2
    case VcselWatchdog => 3
    case Pll1Lock => 4
    case Pll2Lock => 5
    case EarlyConvergenceEstimate => 6
    case MaxConvergence => 7
    case RangeIgnore => 8
    case MaxSignalToNoiseRatio => 11
    case RawRangingAlgoUnderflow => 12
    case RawRangingAlgoOverflow => 13
    case RangingAlgoUnderflow => 14
    case RangingAlgoOverflow => 15
  }

  function AmbientCode(c: AmbientStatusCode): nat
  {
    match c
    case AmbientNoError => 0
    case Overflow => 1
    case Underflow => 2
  }

  /** `RangeStatusErrorCode::try_from(n)`: `None` for a value no code has. */
  function RangeStatusFromNibble(n: int): Option<RangeStatusCode>
  {
    match n
    case 0 => Some(RangeNoError)
    case 1 => Some(VcselContinuityTest)
    case 2 => Some(VcselWatchdogTest)
    case 3 => Some(VcselWatchdog)
    case 4 => Some(Pll1Lock)
    case 5 => Some(Pll2Lock)
    case 6 => Some(EarlyConvergenceEstimate)
    case 7 => Some(MaxConvergence)
    case 8 => Some(RangeIgnore)
    case 11 => Some(MaxSignalToNoiseRatio)
    case 12 => Some(RawRangingAlgoUnderflow)
    case 13 => Some(RawRangingAlgoOverflow)
    case 14 => Some(RangingAlgoUnderflow)
    case 15 => Some(RangingAlgoOverflow)
    case _ => None
  }

  /** `AmbientStatusErrorCode::try_from(n)`. */
  function AmbientStatusFromNibble(n: int): Option<AmbientStatusCode>
  {
    match n
    case 0 => Some(AmbientNoError)
    case 1 => Some(Overflow)
    case 2 => Some(Underflow)
    case _ => None
  }

  /** The status nibble of a raw status-register byte: `byte >> 4`. */
  function StatusNibble(b: byte): (n: nat)
    ensures n < 16
  {
    b / 16
  }

  /** Decoding is the exact inverse of the discriminants, in both directions. */
  lemma RangeStatusRoundTrip(c: RangeStatusCode, n: int)
    ensures RangeStatusFromNibble(RangeCode(c)) == Some(c)
    ensures RangeStatusFromNibble(n) == Some(c) ==> RangeCode(c) == n
  {
  }

  lemma AmbientStatusRoundTrip(c: AmbientStatusCode, n: int)
    ensures AmbientStatusFromNibble(AmbientCode(c)) == Some(c)
    ensures AmbientStatusFromNibble(n) == Some(c) ==> AmbientCode(c) == n
  {
  }

  /** Of the sixteen nibble values exactly 9 and 10 are unknown range codes,
      and everything from 3 up is an unknown ambient code. */
  lemma UnknownNibbles(n: nat)
    requires n < 16
    ensures RangeStatusFromNibble(n).None? <==> n == 9 || n == 10
    ensures AmbientStatusFromNibble(n).None? <==> n >= 3
  {
  }

  /** The register_tests.rs decoding assertions, applied to the raw byte's
      upper nibble (the convention of read_measurements.rs). */
  lemma RangeStatusTests()
    ensures RangeStatusFromNibble(StatusNibble(0x60)) == Some(EarlyConvergenceEstimate)  // 0b0110_0000
    ensures RangeStatusFromNibble(StatusNibble(0x90)).None?                              // 0b1001_0000
  {
  }
}
