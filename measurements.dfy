/** Measurement acquisition (src/read_measurements.rs and the older
    revision's reads in src/mode.rs): polling the interrupt-status register,
    reading a result's status nibble, clearing the interrupt and reading the
    value. Range and ambient light follow the same protocol over different
    registers, so both are modelled by one definition over a `Channel`. */
module Measurements {
  import opened Bytes
  import opened Optional
  import opened Errors
  import opened Registers
  import opened Status
  import opened Framing
  import opened I2cBus
  import opened Modes
  import opened Driver
  import opened DeviceStatus

  datatype Channel = RangeChannel | AmbientChannel

  /** `NoRangeEvents` / `NoAmbientEvents`. */
  function NoEvents(ch: Channel): InterruptStatus
  {
    match ch
    case RangeChannel => NoRangeEvents
    case AmbientChannel => NoAmbientEvents
  }

  /** `NewSampleReadyRangeEvent` / `NewSampleReadyAmbientEvent`. */
  function NewSample(ch: Channel): InterruptStatus
  {
    match ch
    case RangeChannel => NewSampleReadyRangeEvent
    case AmbientChannel => NewSampleReadyAmbientEvent
  }

  /** RESULT__RANGE_STATUS / RESULT__ALS_STATUS. */
  function StatusRegister(ch: Channel): u16
  {
    match ch
    case RangeChannel => Addr(ResultRangeStatus)
    case AmbientChannel => Addr(ResultAlsStatus)
  }

  /** RESULT__RANGE_VAL (one byte) / RESULT__ALS_VAL (two bytes). */
  function ValueRead(device: byte, ch: Channel): Transaction
  {
    match ch
    case RangeChannel => ReadFrame(device, Addr(ResultRangeVal), 1)
    case AmbientChannel => ReadFrame(device, Addr(ResultAlsVal), 2)
  }

  /** The channel's `SysInterruptClearCode`. */
  function ClearCodeOf(ch: Channel): byte
  {
    match ch
    case RangeChannel => ClearRange
    case AmbientChannel => ClearAmbient
  }

  /** `has_error_or_event(k, b)` of the older revision: the event `k` is
      flagged, or the error field is not `NoError`. */
  predicate HasErrorOrEvent(k: InterruptStatus, b: byte)
  {
    HasStatus(k, b) || !HasStatus(NoError, b)
  }

  /** The condition a blocking read keeps polling under:
      read_measurements.rs waits while the channel reports no events;
      mode.rs waits until a new sample or an error is flagged. */
  datatype WaitRule = WhileNoEvents(ch: Channel) | UntilSampleOrError(ch: Channel)

  predicate StillWaiting(w: WaitRule, b: byte)
  {
    match w
    case WhileNoEvents(ch) => HasStatus(NoEvents(ch), b)
    case UntilSampleOrError(ch) => !HasErrorOrEvent(NewSample(ch), b)
  }

  /** The rule as the loop condition over the status byte. */
  function Waiting(w: WaitRule): byte -> bool
  {
    (b: byte) => StillWaiting(w, b)
  }

  /** Reply `k` is a status byte on which `waiting` says to keep polling. */
  predicate Waits(waiting: byte -> bool, rs: seq<Reply>, k: nat)
  {
    Nth(rs, k).Ack? && waiting(Byte0(Nth(rs, k).data))
  }

  /** One read of RESULT__INTERRUPT_STATUS_GPIO. */
  function StatusRead(device: byte): Transaction
  {
    ReadFrame(device, Addr(ResultInterruptStatusGpio), 1)
  }

  /** The poll loop of a blocking read, with counter `c` and limit `max`:
      a failed read stops it (`?`), a status that does not say to wait ends
      it, and otherwise the counter is incremented and compared with the
      limit before the next read. */
  function PollEx(device: byte, waiting: byte -> bool, max: nat, c: nat, rs: seq<Reply>, i: nat): Exchange<()>
    decreases |rs| - i
  {
    var rd := StatusRead(device);
    if Nth(rs, i).Nack? then Exchange([rd], Err(BusError))
    else if !waiting(Byte0(Nth(rs, i).data)) then Exchange([rd], Ok(()))
    else if c + 1 == max then Exchange([rd], Err(Timeout))
    else Prepend(rd, PollEx(device, waiting, max, c + 1, rs, i + 1))
  }

  /** The poll sends only status reads; every reply but the last said to
      wait; it succeeds iff the last reply is a status that does not say to
      wait, fails with a bus error iff the last read failed, and can fail in
      no other way than that or a timeout. With `c < max` it sends at most
      `max - c` reads. */
  lemma {:induction false} PollShape(device: byte, waiting: byte -> bool, max: nat, c: nat, rs: seq<Reply>, i: nat)
    ensures var e := PollEx(device, waiting, max, c, rs, i);
      var n := |e.trace|;
      && 1 <= n
      && (forall k :: 0 <= k < n ==> e.trace[k] == StatusRead(device))
      && (forall j :: i <= j < i + n - 1 ==> Waits(waiting, rs, j))
      && (e.result.Ok? <==> Nth(rs, i + n - 1).Ack? && !waiting(Byte0(Nth(rs, i + n - 1).data)))
      && (e.result == Err(BusError) <==> Nth(rs, i + n - 1).Nack?)
      && (e.result.Err? ==> e.result.error == BusError || e.result.error == Timeout)
      && (c < max ==> n <= max - c)
    decreases |rs| - i
  {
    if Nth(rs, i).Ack? && waiting(Byte0(Nth(rs, i).data)) && c + 1 != max {
      PollShape(device, waiting, max, c + 1, rs, i + 1);
    }
  }

  /** `Timeout` after exactly `max - c` polls: the poll times out iff the
      next `max - c` replies all say to wait, and then it has sent exactly
      that many status reads and nothing else. */
  lemma {:induction false} PollTimeoutIff(device: byte, waiting: byte -> bool, max: nat, c: nat, rs: seq<Reply>, i: nat)
    requires c < max
    ensures var e := PollEx(device, waiting, max, c, rs, i);
      && (e.result == Err(Timeout) <==> forall j :: i <= j < i + (max - c) ==> Waits(waiting, rs, j))
      && (e.result == Err(Timeout) ==> |e.trace| == max - c)
    decreases max - c
  {
    if Waits(waiting, rs, i) && c + 1 != max {
      PollTimeoutIff(device, waiting, max, c + 1, rs, i + 1);
      var e := PollEx(device, waiting, max, c, rs, i);
      if forall j :: i + 1 <= j < i + 1 + (max - (c + 1)) ==> Waits(waiting, rs, j) {
        assert forall j :: i <= j < i + (max - c) ==> Waits(waiting, rs, j) by {
          forall j | i <= j < i + (max - c)
            ensures Waits(waiting, rs, j)
          {
            if j != i {
              assert i + 1 <= j < i + 1 + (max - (c + 1));
            }
          }
        }
      }
    } else if !Waits(waiting, rs, i) {
      assert !(i <= i < i + (max - c) ==> Waits(waiting, rs, i));
    }
  }

  /** With a limit the counter has already passed (a limit of 0, in
      particular), the poll never times out. */
  lemma {:induction false} PollNoLimit(device: byte, waiting: byte -> bool, max: nat, c: nat, rs: seq<Reply>, i: nat)
    requires max <= c
    ensures PollEx(device, waiting, max, c, rs, i).result != Err(Timeout)
    decreases |rs| - i
  {
    if Nth(rs, i).Ack? && waiting(Byte0(Nth(rs, i).data)) {
      PollNoLimit(device, waiting, max, c + 1, rs, i + 1);
    }
  }

  /** One iteration of the poll loop, after `sent` and the read at `i0 + c`. */
  lemma PollStep(device: byte, waiting: byte -> bool, max: nat, c: nat, rs: seq<Reply>, i0: nat, sent: seq<Transaction>)
    requires PollEx(device, waiting, max, 0, rs, i0) == Splice(sent, PollEx(device, waiting, max, c, rs, i0 + c))
    ensures var rd := StatusRead(device);
      Nth(rs, i0 + c).Nack? ==> PollEx(device, waiting, max, 0, rs, i0) == Exchange(sent + [rd], Err(BusError))
    ensures var rd := StatusRead(device);
      !Waits(waiting, rs, i0 + c) && Nth(rs, i0 + c).Ack? ==>
        PollEx(device, waiting, max, 0, rs, i0) == Exchange(sent + [rd], Ok(()))
    ensures var rd := StatusRead(device);
      Waits(waiting, rs, i0 + c) && c + 1 == max ==>
        PollEx(device, waiting, max, 0, rs, i0) == Exchange(sent + [rd], Err(Timeout))
    ensures var rd := StatusRead(device);
      Waits(waiting, rs, i0 + c) && c + 1 != max ==>
        PollEx(device, waiting, max, 0, rs, i0) == Splice(sent + [rd], PollEx(device, waiting, max, c + 1, rs, i0 + c + 1))
  {
  }

  /** `RangeStatusErrorCode::try_from` / `AmbientStatusErrorCode::try_from`
      of the status nibble, then the comparison with `NoError`. */
  function CheckStatus(ch: Channel, nib: nat): Result<()>
  {
    match ch
    case RangeChannel =>
      (match RangeStatusFromNibble(nib)
       case None => Err(UnknownRegisterCode(nib))
       case Some(code) => if code == RangeNoError then Ok(()) else Err(RangeStatusError(code)))
    case AmbientChannel =>
      (match AmbientStatusFromNibble(nib)
       case None => Err(UnknownRegisterCode(nib))
       case Some(code) => if code == AmbientNoError then Ok(()) else Err(AmbientStatusError(code)))
  }

  /** A nibble passes iff it is 0; an unknown nibble is reported with its
      value (range: 9 and 10; ambient: 3 and up); a known nibble other than
      0 is reported as the code it decodes to. */
  lemma CheckStatusMeaning(ch: Channel, nib: nat)
    requires nib < 16
    ensures CheckStatus(ch, nib).Ok? <==> nib == 0
    ensures CheckStatus(RangeChannel, nib) == Err(UnknownRegisterCode(nib)) <==> nib == 9 || nib == 10
    ensures CheckStatus(AmbientChannel, nib) == Err(UnknownRegisterCode(nib)) <==> nib >= 3
    ensures var r := CheckStatus(RangeChannel, nib);
      r.Err? && r.error.RangeStatusError? ==> r.error.rangeCode != RangeNoError && RangeCode(r.error.rangeCode) == nib
    ensures var r := CheckStatus(AmbientChannel, nib);
      r.Err? && r.error.AmbientStatusError? ==> r.error.ambientCode != AmbientNoError && AmbientCode(r.error.ambientCode) == nib
    ensures CheckStatus(ch, nib).Err? ==>
      CheckStatus(ch, nib).error.UnknownRegisterCode? || CheckStatus(ch, nib).error.RangeStatusError?
      || CheckStatus(ch, nib).error.AmbientStatusError?
  {
    UnknownNibbles(nib);
    var r := RangeStatusFromNibble(nib);
    if r.Some? {
      RangeStatusRoundTrip(r.value, nib);
    }
    var a := AmbientStatusFromNibble(nib);
    if a.Some? {
      AmbientStatusRoundTrip(a.value, nib);
    }
  }

  /** `convert_raw_range_to_mm`: the raw value times the scaling factor,
      which cannot overflow 16 bits and is at most 3 * 255 for a valid
      scaling factor. */
  function ConvertRawRangeToMm(scaling: byte, raw: byte): (mm: u16)
    ensures scaling <= 3 ==> mm <= 765
    ensures 1 <= scaling ==> raw <= mm
  {
    MulMonotone(scaling, raw, 255, 255);
    MulMonotone(scaling, raw, 3, 255);
    MulMonotone(1, raw, scaling, raw);
    scaling * raw
  }

  lemma MulMonotone(a: nat, b: nat, c: nat, d: nat)
    ensures a <= c && b <= d ==> a * b <= c * d
  {
    if a <= c && b <= d {
      assert a * b <= c * b;
      assert c * b <= c * d;
    }
  }

  /** Reading the measured value: the one-byte range, converted to mm, or
      the two-byte ambient count. */
  function ValueEx(device: byte, ch: Channel, scaling: byte, rs: seq<Reply>, i: nat): Exchange<u16>
  {
    match ch
    case RangeChannel =>
      var rd := Read8Ex(device, Addr(ResultRangeVal), rs, i);
      Exchange(rd.trace, if rd.result.Ok? then Ok(ConvertRawRangeToMm(scaling, rd.result.value)) else Err(BusError))
    case AmbientChannel => Read16Ex(device, Addr(ResultAlsVal), rs, i)
  }

  /** `get_range_val_and_status` / `get_ambient_val_and_status`: the status
      nibble is read, the channel's interrupt is cleared, the nibble is
      checked and only then is the value read. */
  function ValAndStatusEx(device: byte, ch: Channel, scaling: byte, rs: seq<Reply>, i: nat): Exchange<u16>
  {
    var st := Read8Ex(device, StatusRegister(ch), rs, i);
    if st.result.Err? then Exchange(st.trace, Err(BusError))
    else
      var clear := ClearEx(device, ClearCodeOf(ch), rs, i + 1);
      if clear.result.Err? then Exchange(st.trace + clear.trace, Err(BusError))
      else
        var check := CheckStatus(ch, StatusNibble(st.result.value));
        if check.Err? then Exchange(st.trace + clear.trace, Err(check.error))
        else Splice(st.trace + clear.trace, ValueEx(device, ch, scaling, rs, i + 2))
  }

  /** The status nibble of reply `i`. */
  function NibbleAt(rs: seq<Reply>, i: nat): nat
  {
    match Nth(rs, i)
    case Ack(data) => StatusNibble(Byte0(data))
    case Nack => 0
  }

  /** The status register is read first; once it is read the interrupt is
      cleared, before the status is decoded and so even when an error is
      returned; the value register is read iff the status read and the
      clear succeeded and the nibble is `NoError`; the result is the
      decoded value iff that read succeeded too, and otherwise the first
      failure. */
  lemma ValAndStatusOutcome(device: byte, ch: Channel, scaling: byte, rs: seq<Reply>, i: nat)
    ensures var e := ValAndStatusEx(device, ch, scaling, rs, i);
      && 1 <= |e.trace| <= 3
      && e.trace[0] == ReadFrame(device, StatusRegister(ch), 1)
      && (Nth(rs, i).Ack? ==> |e.trace| >= 2 && e.trace[1] == Write8Frame(device, Addr(SystemInterruptClear), ClearCodeOf(ch)))
      && (|e.trace| == 3 <==> Nth(rs, i).Ack? && Nth(rs, i + 1).Ack? && NibbleAt(rs, i) == 0)
      && (|e.trace| == 3 ==> e.trace[2] == ValueRead(device, ch))
      && (e.result.Ok? <==> AllAcked(rs, i, 3) && NibbleAt(rs, i) == 0)
      && (Nth(rs, i).Ack? && Nth(rs, i + 1).Ack? && NibbleAt(rs, i) != 0 ==>
            e.result == Err(CheckStatus(ch, NibbleAt(rs, i)).error))
      && (e.result.Ok? && ch == RangeChannel ==> e.result.value == ConvertRawRangeToMm(scaling, Byte0(Nth(rs, i + 2).data)))
      && (e.result.Ok? && ch == AmbientChannel ==> e.result.value == U16FromBe(Fill(Nth(rs, i + 2).data, 2)))
      && e.result != Err(Timeout) && e.result != Err(ResultNotReady)
  {
    CheckStatusMeaning(ch, NibbleAt(rs, i));
    assert AllAcked(rs, i, 3) <==> Nth(rs, i).Ack? && Nth(rs, i + 1).Ack? && Nth(rs, i + 2).Ack? by {
      if Nth(rs, i).Ack? && Nth(rs, i + 1).Ack? && Nth(rs, i + 2).Ack? {
        forall j | i <= j < i + 3 ensures Nth(rs, j).Ack? {
          assert j == i || j == i + 1 || j == i + 2;
        }
      }
    }
    if Nth(rs, i).Ack? && Nth(rs, i + 1).Ack? && NibbleAt(rs, i) == 0 {
      match ch
      case RangeChannel =>
      case AmbientChannel =>
    }
  }

  /** `read_range_mm_direct` / `read_ambient_direct`: one status poll;
      `ResultNotReady` if the channel reports no events, otherwise the
      value with its status. */
  function ReadDirectEx(device: byte, ch: Channel, scaling: byte, rs: seq<Reply>, i: nat): Exchange<u16>
  {
    var st := Read8Ex(device, Addr(ResultInterruptStatusGpio), rs, i);
    if st.result.Err? then Exchange(st.trace, Err(BusError))
    else if HasStatus(NoEvents(ch), st.result.value) then Exchange(st.trace, Err(ResultNotReady))
    else Splice(st.trace, ValAndStatusEx(device, ch, scaling, rs, i + 1))
  }

  /** The non-blocking read returns `ResultNotReady` iff its single poll
      reports no events, and then it has touched no other register;
      otherwise, after a successful poll, it is the status-and-value read. */
  lemma ReadDirectOutcome(device: byte, ch: Channel, scaling: byte, rs: seq<Reply>, i: nat)
    ensures var e := ReadDirectEx(device, ch, scaling, rs, i);
      && (e.result == Err(ResultNotReady) <==> Waits(Waiting(WhileNoEvents(ch)), rs, i))
      && (e.result == Err(ResultNotReady) ==> e.trace == [StatusRead(device)])
      && (e.result == Err(BusError) && |e.trace| == 1 <==> Nth(rs, i).Nack?)
      && (Nth(rs, i).Ack? && !Waits(Waiting(WhileNoEvents(ch)), rs, i) ==>
            var v := ValAndStatusEx(device, ch, scaling, rs, i + 1);
            e.trace == [StatusRead(device)] + v.trace && e.result == v.result)
  {
    ValAndStatusOutcome(device, ch, scaling, rs, i + 1);
  }

  /** `read_range_mm_blocking_direct` / `read_ambient_blocking_direct`:
      the poll with limit `max` (`poll_max_loop`), then the value with its
      status. */
  function ReadBlockingEx(device: byte, ch: Channel, scaling: byte, max: nat, rs: seq<Reply>, i: nat): Exchange<u16>
  {
    var poll := PollEx(device, Waiting(WhileNoEvents(ch)), max, 0, rs, i);
    Then(poll, ValAndStatusEx(device, ch, scaling, rs, i + |poll.trace|))
  }

  /** The blocking read times out iff the first `max` polls all report no
      events, and then it has sent exactly `max` status reads and has
      read neither the result status nor the value; once a poll reports an
      event it goes on with the status-and-value read. */
  lemma ReadBlockingOutcome(device: byte, ch: Channel, scaling: byte, max: nat, rs: seq<Reply>, i: nat)
    requires 1 <= max
    ensures var e := ReadBlockingEx(device, ch, scaling, max, rs, i);
      && (e.result == Err(Timeout) <==> forall j :: i <= j < i + max ==> Waits(Waiting(WhileNoEvents(ch)), rs, j))
      && (e.result == Err(Timeout) ==> |e.trace| == max && forall k :: 0 <= k < max ==> e.trace[k] == StatusRead(device))
      && var poll := PollEx(device, Waiting(WhileNoEvents(ch)), max, 0, rs, i);
         (poll.result.Ok? ==> e.trace == poll.trace + ValAndStatusEx(device, ch, scaling, rs, i + |poll.trace|).trace
                              && e.result == ValAndStatusEx(device, ch, scaling, rs, i + |poll.trace|).result)
  {
    var poll := PollEx(device, Waiting(WhileNoEvents(ch)), max, 0, rs, i);
    PollShape(device, Waiting(WhileNoEvents(ch)), max, 0, rs, i);
    PollTimeoutIff(device, Waiting(WhileNoEvents(ch)), max, 0, rs, i);
    ValAndStatusOutcome(device, ch, scaling, rs, i + |poll.trace|);
  }

  /** The older revision's value step: the range result follows
      `get_range_val_and_status`; the ambient one reads RESULT__ALS_VAL and
      then clears the ambient interrupt, with no status check. */
  function TypedValueEx(device: byte, ch: Channel, scaling: byte, rs: seq<Reply>, i: nat): Exchange<u16>
  {
    match ch
    case RangeChannel => ValAndStatusEx(device, ch, scaling, rs, i)
    case AmbientChannel =>
      var v := Read16Ex(device, Addr(ResultAlsVal), rs, i);
      if v.result.Err? then Exchange(v.trace, Err(BusError))
      else
        var clear := ClearEx(device, ClearAmbient, rs, i + 1);
        Exchange(v.trace + clear.trace, if clear.result.Ok? then Ok(v.result.value) else Err(BusError))
  }

  /** The older ambient read sends the value read and then, if it
      succeeded, the clear; it returns the value iff both succeed. */
  lemma TypedAmbientOutcome(device: byte, scaling: byte, rs: seq<Reply>, i: nat)
    ensures var e := TypedValueEx(device, AmbientChannel, scaling, rs, i);
      && e.trace[0] == ValueRead(device, AmbientChannel)
      && (|e.trace| == 2 <==> Nth(rs, i).Ack?)
      && (|e.trace| == 2 ==> e.trace[1] == Write8Frame(device, Addr(SystemInterruptClear), ClearAmbient))
      && |e.trace| <= 2
      && (e.result.Ok? <==> Nth(rs, i).Ack? && Nth(rs, i + 1).Ack?)
      && (e.result.Ok? ==> e.result.value == U16FromBe(Fill(Nth(rs, i).data, 2)))
      && (e.result.Err? ==> e.result.error == BusError)
  {
  }

  /** `read_range` / `read_ambient` of mode.rs: `ResultNotReady` unless a
      new sample or an error is flagged. */
  function ReadTypedEx(device: byte, ch: Channel, scaling: byte, rs: seq<Reply>, i: nat): Exchange<u16>
  {
    var st := Read8Ex(device, Addr(ResultInterruptStatusGpio), rs, i);
    if st.result.Err? then Exchange(st.trace, Err(BusError))
    else if !HasErrorOrEvent(NewSample(ch), st.result.value) then Exchange(st.trace, Err(ResultNotReady))
    else Splice(st.trace, TypedValueEx(device, ch, scaling, rs, i + 1))
  }

  /** The older non-blocking read is not ready iff its poll shows neither
      a new sample nor an error, and then it has touched no other register. */
  lemma ReadTypedOutcome(device: byte, ch: Channel, scaling: byte, rs: seq<Reply>, i: nat)
    ensures var e := ReadTypedEx(device, ch, scaling, rs, i);
      && (e.result == Err(ResultNotReady) <==> Waits(Waiting(UntilSampleOrError(ch)), rs, i))
      && (e.result == Err(ResultNotReady) ==> e.trace == [StatusRead(device)])
  {
    if ch == RangeChannel {
      ValAndStatusOutcome(device, ch, scaling, rs, i + 1);
    }
  }

  /** `read_range_blocking` / `read_ambient_blocking` of mode.rs: the poll
      with limit `io_timeout`, then the value step. */
  function ReadBlockingTypedEx(device: byte, ch: Channel, scaling: byte, max: nat, rs: seq<Reply>, i: nat): Exchange<u16>
  {
    var poll := PollEx(device, Waiting(UntilSampleOrError(ch)), max, 0, rs, i);
    Then(poll, TypedValueEx(device, ch, scaling, rs, i + |poll.trace|))
  }

  /** The older blocking read times out iff the first `max` polls show
      neither a new sample nor an error, and only the poll can time out. */
  lemma ReadBlockingTypedOutcome(device: byte, ch: Channel, scaling: byte, max: nat, rs: seq<Reply>, i: nat)
    requires 1 <= max
    ensures var e := ReadBlockingTypedEx(device, ch, scaling, max, rs, i);
      && (e.result == Err(Timeout) <==> forall j :: i <= j < i + max ==> Waits(Waiting(UntilSampleOrError(ch)), rs, j))
      && (e.result == Err(Timeout) ==> |e.trace| == max)
      && (e.result == Err(Timeout) <==> PollEx(device, Waiting(UntilSampleOrError(ch)), max, 0, rs, i).result == Err(Timeout))
  {
    var poll := PollEx(device, Waiting(UntilSampleOrError(ch)), max, 0, rs, i);
    PollShape(device, Waiting(UntilSampleOrError(ch)), max, 0, rs, i);
    PollTimeoutIff(device, Waiting(UntilSampleOrError(ch)), max, 0, rs, i);
    if ch == RangeChannel {
      ValAndStatusOutcome(device, ch, scaling, rs, i + |poll.trace|);
    }
  }

  /** One read of the interrupt-status register. */
  method ReadStatus(d: Sensor) returns (status: Result<byte>)
    modifies d.com
    ensures d.com.log == old(d.com.log) + [StatusRead(d.config.address)]
    ensures status == Read8Ex(d.config.address, Addr(ResultInterruptStatusGpio), d.com.script, old(|d.com.log|)).result
  {
    status := d.ReadRegister(Addr(ResultInterruptStatusGpio));
  }

  /** The poll loop shared by the blocking reads. */
  method PollStatus(d: Sensor, waiting: byte -> bool, max: nat) returns (r: Result<()>)
    modifies d.com
    ensures var e := PollEx(d.config.address, waiting, max, 0, d.com.script, old(|d.com.log|));
      d.com.log == old(d.com.log) + e.trace && r == e.result
  {
    ghost var a, rs, i0, log0 := d.config.address, d.com.script, |d.com.log|, d.com.log;
    ghost var rd := StatusRead(a);
    ghost var sent: seq<Transaction> := [];
    var c := 0;
    var status := ReadStatus(d);
    while status.Ok? && waiting(status.value) && c + 1 != max
      invariant d.com.script == rs && d.com.log == log0 + (sent + [rd]) && |sent| == c
      invariant |d.com.log| == i0 + c + 1
      invariant status == Read8Ex(a, Addr(ResultInterruptStatusGpio), rs, i0 + c).result
      invariant PollEx(a, waiting, max, 0, rs, i0) == Splice(sent, PollEx(a, waiting, max, c, rs, i0 + c))
      decreases |rs| - (i0 + c)
    {
      PollStep(a, waiting, max, c, rs, i0, sent);
      c := c + 1;
      sent := sent + [rd];
      status := ReadStatus(d);
    }
    PollStep(a, waiting, max, c, rs, i0, sent);
    if status.Err? {
      return Err(BusError);
    }
    if waiting(status.value) {
      return Err(Timeout);
    }
    return Ok(());
  }

  /** `get_range_val_and_status` / `get_ambient_val_and_status`. */
  method GetValAndStatus(d: Sensor, ch: Channel) returns (r: Result<u16>)
    modifies d.com
    ensures var e := ValAndStatusEx(d.config.address, ch, d.config.rangeScaling, d.com.script, old(|d.com.log|));
      d.com.log == old(d.com.log) + e.trace && r == e.result
  {
    var status := d.ReadRegister(StatusRegister(ch));
    if status.Err? {
      return Err(BusError);
    }
    var nibble := StatusNibble(status.value);
    var cleared;
    match ch {
      case RangeChannel => cleared := ClearRangeInterrupt(d);
      case AmbientChannel => cleared := ClearAmbientInterrupt(d);
    }
    if cleared.Err? {
      return Err(BusError);
    }
    var check := CheckStatus(ch, nibble);
    if check.Err? {
      return Err(check.error);
    }
    match ch {
      case RangeChannel =>
        var raw := d.ReadRegister(Addr(ResultRangeVal));
        if raw.Err? {
          return Err(BusError);
        }
        r := Ok(ConvertRawRangeToMm(d.config.rangeScaling, raw.value));
      case AmbientChannel =>
        r := d.ReadRegister16(Addr(ResultAlsVal));
    }
  }

  /** `read_range_mm_direct` / `read_ambient_direct`. */
  method ReadDirect(d: Sensor, ch: Channel) returns (r: Result<u16>)
    modifies d.com
    ensures var e := ReadDirectEx(d.config.address, ch, d.config.rangeScaling, d.com.script, old(|d.com.log|));
      d.com.log == old(d.com.log) + e.trace && r == e.result
  {
    var status := d.ReadRegister(Addr(ResultInterruptStatusGpio));
    if status.Err? {
      return Err(BusError);
    }
    if HasStatus(NoEvents(ch), status.value) {
      return Err(ResultNotReady);
    }
    ghost var log1 := d.com.log;
    r := GetValAndStatus(d, ch);
  }

  /** `read_range_mm_blocking_direct` / `read_ambient_blocking_direct`,
      polling up to the configured limit. */
  method ReadBlockingDirect(d: Sensor, ch: Channel) returns (r: Result<u16>)
    modifies d.com
    ensures var e := ReadBlockingEx(d.config.address, ch, d.config.rangeScaling, d.config.ioTimeout,
                                    d.com.script, old(|d.com.log|));
      d.com.log == old(d.com.log) + e.trace && r == e.result
  {
    ghost var log0 := d.com.log;
    var poll := PollStatus(d, Waiting(WhileNoEvents(ch)), d.config.ioTimeout);
    if poll.Err? {
      return Err(poll.error);
    }
    ghost var log1 := d.com.log;
    r := GetValAndStatus(d, ch);
    ghost var pollEx := PollEx(d.config.address, Waiting(WhileNoEvents(ch)), d.config.ioTimeout, 0, d.com.script, |log0|);
    LogThen(log0, log1, d.com.log, pollEx,
            ValAndStatusEx(d.config.address, ch, d.config.rangeScaling, d.com.script, |log1|));
  }

  /** The older revision's value step (see `TypedValueEx`). */
  method GetTypedValue(d: Sensor, ch: Channel) returns (r: Result<u16>)
    modifies d.com
    ensures var e := TypedValueEx(d.config.address, ch, d.config.rangeScaling, d.com.script, old(|d.com.log|));
      d.com.log == old(d.com.log) + e.trace && r == e.result
  {
    match ch {
      case RangeChannel =>
        r := GetValAndStatus(d, ch);
      case AmbientChannel =>
        var ambient := d.ReadRegister16(Addr(ResultAlsVal));
        if ambient.Err? {
          return Err(BusError);
        }
        var cleared := d.WriteRegister(Addr(SystemInterruptClear), ClearAmbient);
        if cleared.Err? {
          return Err(BusError);
        }
        r := Ok(ambient.value);
    }
  }

  /** `read_range` / `read_ambient` of mode.rs, callable only on a driver
      typed with a mode that implements `AllowReadMeasurement`. */
  method ReadTyped(d: Sensor, ch: Channel) returns (r: Result<u16>)
    requires d.mode.TypeState? && AllowReadMeasurement(d.mode.mode)
    modifies d.com
    ensures var e := ReadTypedEx(d.config.address, ch, d.config.rangeScaling, d.com.script, old(|d.com.log|));
      d.com.log == old(d.com.log) + e.trace && r == e.result
  {
    var status := d.ReadRegister(Addr(ResultInterruptStatusGpio));
    if status.Err? {
      return Err(BusError);
    }
    if !HasErrorOrEvent(NewSample(ch), status.value) {
      return Err(ResultNotReady);
    }
    r := GetTypedValue(d, ch);
  }

  /** `read_range_blocking` / `read_ambient_blocking` of mode.rs: polls up
      to `io_timeout` times and sets `did_timeout` on a timeout, and only
      then. */
  method ReadBlockingTyped(d: Sensor, ch: Channel) returns (r: Result<u16>)
    requires d.mode.TypeState? && AllowReadMeasurement(d.mode.mode)
    modifies d.com, d`didTimeout
    ensures var e := ReadBlockingTypedEx(d.config.address, ch, d.config.rangeScaling, d.config.ioTimeout,
                                         d.com.script, old(|d.com.log|));
      d.com.log == old(d.com.log) + e.trace && r == e.result
    ensures d.didTimeout == (old(d.didTimeout) || r == Err(Timeout))
  {
    ghost var log0 := d.com.log;
    var poll := PollStatus(d, Waiting(UntilSampleOrError(ch)), d.config.ioTimeout);
    if poll.Err? {
      if poll.error == Timeout {
        d.didTimeout := true;
      }
      return Err(poll.error);
    }
    ghost var log1 := d.com.log;
    r := GetTypedValue(d, ch);
    ghost var pollEx := PollEx(d.config.address, Waiting(UntilSampleOrError(ch)), d.config.ioTimeout, 0, d.com.script, |log0|);
    LogThen(log0, log1, d.com.log, pollEx,
            TypedValueEx(d.config.address, ch, d.config.rangeScaling, d.com.script, |log1|));
    ValAndStatusOutcome(d.config.address, ch, d.config.rangeScaling, d.com.script, |log1|);
  }
}
