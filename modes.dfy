/** The operating-mode state machine, in both of the driver's encodings:
    the capability traits implemented per mode type (src/mode.rs,
    src/mode/ready.rs, continuous.rs, powered_off.rs) and the runtime guard
    of `DynamicMode` (src/mode/dynamic.rs). */
module Modes {

  /** `OperatingMode`, mirroring the five mode types. */
  datatype Mode = PoweredOff | Ready | RangeContinuous | AmbientContinuous | InterleavedContinuous

  /** The driver's `mode` field: either a zero-sized type-state marker (the
      mode is the static type of the driver) or a `DynamicMode` holding the
      runtime `operating_mode`. */
  datatype ModeTag = TypeState(mode: Mode) | DynamicMode(operatingMode: Mode)

  /** Operations whose availability depends on the mode. */
  datatype Op =
    | PollRangeSingle | PollAmbientSingle
    | StartRangeContinuous | StopRangeContinuous
    | StartAmbientContinuous | StopAmbientContinuous
    | StartInterleaved | StopInterleaved
    | StartRangeSingle | StartAmbientSingle
    | ReadRangeBlocking | ReadRange | ReadAmbientBlocking | ReadAmbient
    | PowerOff | PowerOnAndInit

  // The capability traits and the mode types implementing them.

  /** `impl AllowReadMeasurement for ...`: every mode type but PoweredOffMode. */
  predicate AllowReadMeasurement(m: Mode)
  {
    match m
    case Ready | RangeContinuous | AmbientContinuous | InterleavedContinuous => true
    case PoweredOff => false
  }

  /** `impl AllowStartRangeSingle for ...`: ReadyMode and AmbientContinuousMode. */
  predicate AllowStartRangeSingle(m: Mode)
  {
    m == Ready || m == AmbientContinuous
  }

  /** `impl AllowStartAmbientSingle for ...`: ReadyMode and RangeContinuousMode. */
  predicate AllowStartAmbientSingle(m: Mode)
  {
    m == Ready || m == RangeContinuous
  }

  /** Which operations exist as methods on the driver typed with mode `m`:
      the capability-gated ones of mode.rs, the inherent methods of
      ReadyMode, the stops of the continuous modes and the power-on of
      PoweredOffMode. */
  predicate TypeStateAllows(op: Op, m: Mode)
  {
    match op
    case ReadRangeBlocking | ReadRange | ReadAmbientBlocking | ReadAmbient => AllowReadMeasurement(m)
    case StartRangeSingle => AllowStartRangeSingle(m)
    case StartAmbientSingle => AllowStartAmbientSingle(m)
    case PollRangeSingle | PollAmbientSingle | StartRangeContinuous | StartAmbientContinuous
       | StartInterleaved | PowerOff => m == Ready
    case StopRangeContinuous => m == RangeContinuous
    case StopAmbientContinuous => m == AmbientContinuous
    case StopInterleaved => m == InterleavedContinuous
    case PowerOnAndInit => m == PoweredOff
  }

  /** The guard each `try_*` method of `DynamicMode` applies, as its body
      is written: the two single starts check nothing. */
  predicate DynamicGuardAsWritten(op: Op, m: Mode)
  {
    match op
    case PollRangeSingle | PollAmbientSingle | StartRangeContinuous | StartAmbientContinuous
       | StartInterleaved => m == Ready
    case StopRangeContinuous => m == RangeContinuous
    case StopAmbientContinuous => m == AmbientContinuous
    case StopInterleaved => m == InterleavedContinuous
    case StartRangeSingle | StartAmbientSingle => true
    case ReadRangeBlocking | ReadRange | ReadAmbientBlocking | ReadAmbient => m != PoweredOff
    case PowerOff => m != PoweredOff
    case PowerOnAndInit => m == PoweredOff
  }

  /** The guard the `try_*` doc comments promise: as written, except that
      `try_start_range_single` is valid only in Ready or AmbientContinuous
      and `try_start_ambient_single` only in Ready or RangeContinuous. */
  predicate DynamicGuard(op: Op, m: Mode)
  {
    match op
    case StartRangeSingle => m == Ready || m == AmbientContinuous
    case StartAmbientSingle => m == Ready || m == RangeContinuous
    case _ => DynamicGuardAsWritten(op, m)
  }

  /** The mode after `op` succeeds in mode `m`. */
  function Next(op: Op, m: Mode): Mode
  {
    match op
    case StartRangeContinuous => RangeContinuous
    case StartAmbientContinuous => AmbientContinuous
    case StartInterleaved => InterleavedContinuous
    case StopRangeContinuous | StopAmbientContinuous | StopInterleaved => Ready
    case PowerOff => PoweredOff
    case PowerOnAndInit => Ready
    case _ => m
  }

  /** The documented runtime guard and the type-state table agree on every
      operation except power-off, which the runtime guard also admits from
      the three continuous modes (the type-state API only offers it on
      ReadyMode). */
  lemma GuardAgreesWithTypeState(op: Op, m: Mode)
    ensures op != PowerOff ==> (DynamicGuard(op, m) <==> TypeStateAllows(op, m))
    ensures op == PowerOff ==> (TypeStateAllows(op, m) ==> DynamicGuard(op, m))
    ensures op == PowerOff ==> (DynamicGuard(op, m) && !TypeStateAllows(op, m) <==>
                                m == RangeContinuous || m == AmbientContinuous || m == InterleavedContinuous)
  {
  }

  /** The guard as written differs from the type-state table, apart from
      power-off, exactly on a single start called in a mode without that
      start's capability. */
  lemma AsWrittenGuardException(op: Op, m: Mode)
    requires op != PowerOff
    ensures DynamicGuardAsWritten(op, m) != TypeStateAllows(op, m) <==>
            (op == StartRangeSingle && !AllowStartRangeSingle(m)) ||
            (op == StartAmbientSingle && !AllowStartAmbientSingle(m))
  {
  }

  // The next two lemmas tabulate the documented guards and targets of
  // dynamic.rs per operation, for the reader; the independent statement
  // about the guards is GuardAgreesWithTypeState.

  /** Starts are accepted only in Ready and lead to the matching continuous
      mode; each stop is accepted only in its own continuous mode and leads
      back to Ready. So a second start in RangeContinuous is rejected rather
      than toggling the measurement off. */
  lemma StartStopTransitions(m: Mode)
    ensures DynamicGuard(StartRangeContinuous, m) <==> m == Ready
    ensures DynamicGuard(StartAmbientContinuous, m) <==> m == Ready
    ensures DynamicGuard(StartInterleaved, m) <==> m == Ready
    ensures Next(StartRangeContinuous, m) == RangeContinuous
    ensures Next(StartAmbientContinuous, m) == AmbientContinuous
    ensures Next(StartInterleaved, m) == InterleavedContinuous
    ensures DynamicGuard(StopRangeContinuous, m) <==> m == RangeContinuous
    ensures DynamicGuard(StopAmbientContinuous, m) <==> m == AmbientContinuous
    ensures DynamicGuard(StopInterleaved, m) <==> m == InterleavedContinuous
    ensures Next(StopRangeContinuous, m) == Ready && Next(StopAmbientContinuous, m) == Ready
    ensures Next(StopInterleaved, m) == Ready
  {
  }

  /** Reads are rejected exactly in PoweredOff; polling a single measurement
      is allowed only in Ready; power-off leaves any powered mode and
      power-on is accepted only in PoweredOff. */
  lemma ReadPollPowerGuards(m: Mode)
    ensures DynamicGuard(ReadRangeBlocking, m) <==> m != PoweredOff
    ensures DynamicGuard(ReadRange, m) <==> m != PoweredOff
    ensures DynamicGuard(ReadAmbientBlocking, m) <==> m != PoweredOff
    ensures DynamicGuard(ReadAmbient, m) <==> m != PoweredOff
    ensures DynamicGuard(PollRangeSingle, m) <==> m == Ready
    ensures DynamicGuard(PollAmbientSingle, m) <==> m == Ready
    ensures DynamicGuard(PowerOff, m) <==> m != PoweredOff
    ensures DynamicGuard(PowerOnAndInit, m) <==> m == PoweredOff
    ensures Next(PowerOff, m) == PoweredOff && Next(PowerOnAndInit, m) == Ready
  {
  }

  /** PoweredOffMode has no capability, and power-on is the only operation
      available on it (in both encodings). */
  lemma PoweredOffOnlyPowersOn(op: Op)
    ensures !AllowReadMeasurement(PoweredOff) && !AllowStartRangeSingle(PoweredOff)
    ensures !AllowStartAmbientSingle(PoweredOff)
    ensures TypeStateAllows(op, PoweredOff) <==> op == PowerOnAndInit
    ensures DynamicGuard(op, PoweredOff) <==> op == PowerOnAndInit
  {
  }

  /** The runtime driver after a sequence of calls: an accepted call moves
      to its next mode, a rejected one leaves the mode as it was. */
  function RunOps(ops: seq<Op>, m: Mode): Mode
    decreases |ops|
  {
    if ops == [] then m
    else RunOps(ops[1..], if DynamicGuard(ops[0], m) then Next(ops[0], m) else m)
  }

  /** Starting powered, no sequence of calls without a power-off ends in
      PoweredOff, and no sequence without a power-on leaves PoweredOff. */
  lemma {:induction false} PoweredOffOnlyByPowerOff(ops: seq<Op>, m: Mode)
    ensures m != PoweredOff && PowerOff !in ops ==> RunOps(ops, m) != PoweredOff
    ensures m == PoweredOff && PowerOnAndInit !in ops ==> RunOps(ops, m) == PoweredOff
    decreases |ops|
  {
    if ops != [] {
      var m' := if DynamicGuard(ops[0], m) then Next(ops[0], m) else m;
      assert ops == [ops[0]] + ops[1..];
      PoweredOffOnlyByPowerOff(ops[1..], m');
    }
  }

  /** From Ready: start range continuous, read, stop, ends in Ready; a second
      start in between is rejected and does not change the mode. */
  lemma RangeContinuousScenario()
    ensures RunOps([StartRangeContinuous, ReadRange, StopRangeContinuous], Ready) == Ready
    ensures RunOps([StartRangeContinuous, StartRangeContinuous], Ready) == RangeContinuous
  {
  }
}
