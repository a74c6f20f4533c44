/** Device status and power (src/device_status.rs): identification and
    interrupt-status reads, the interrupt clears, changing the device's bus
    address, and the shutdown pin. */
module DeviceStatus {
  import opened Bytes
  import opened Errors
  import opened Registers
  import opened Framing
  import opened I2cBus
  import opened Configuration
  import opened Driver
  import opened Init

  /** `Range | Ambient | Error`: the three clear bits together. */
  function ClearAllCode(): byte
  {
    ClearRange + ClearAmbient + ClearError
  }

  /** The clear-all code is the OR of the three single codes, i.e. 7, and
      it contains each of them as a distinct bit. */
  lemma {:induction false} ClearAllCodeIsOr()
    ensures BitOr(BitOr(ClearRange, ClearAmbient), ClearError) == ClearAllCode() == 7
    ensures ClearAllCode() / ClearRange % 2 == 1 && ClearAllCode() / ClearAmbient % 2 == 1
    ensures ClearAllCode() / ClearError % 2 == 1
  {
    assert Pow2(1) == 2 && Pow2(2) == 4;
    BitOrDisjoint(1, 1, 1);
    BitOrDisjoint(3, 1, 2);
  }

  /** `clear_interrupt(code)`: one write of `code` to SYSTEM__INTERRUPT_CLEAR. */
  function ClearEx(device: byte, code: byte, rs: seq<Reply>, i: nat): Exchange<()>
  {
    WriteEx(device, Write8(Addr(SystemInterruptClear), code), rs, i)
  }

  /** A clear is a single write of its code to the clear register; it
      succeeds iff the device acknowledges it. */
  lemma ClearOutcome(device: byte, code: byte, rs: seq<Reply>, i: nat)
    ensures var e := ClearEx(device, code, rs, i);
      && e.trace == [Write8Frame(device, Addr(SystemInterruptClear), code)]
      && TargetRegister(e.trace[0]) == Addr(SystemInterruptClear)
      && Payload(e.trace[0]) == [code]
      && (e.result.Ok? <==> Nth(rs, i).Ack?)
      && (e.result.Err? ==> e.result.error == BusError)
  {
    FramesRoundTrip(device, Addr(SystemInterruptClear), code, 0, 0);
  }

  /** `change_i2c_address_direct`: an address outside 0x08..=0x77 is
      refused before anything is sent; otherwise the new address is
      written, with write-only framing, to the device at its old address. */
  function ChangeAddressEx(device: byte, newAddress: byte, rs: seq<Reply>, i: nat): Exchange<()>
  {
    if newAddress < 0x08 || newAddress > 0x77 then Exchange([], Err(InvalidAddress(newAddress)))
    else WriteOnlyEx(device, Addr(I2cSlaveDeviceAddress), newAddress, rs, i)
  }

  /** The address change succeeds iff the address is a valid 7-bit
      non-reserved address and the device acknowledges the write; an
      invalid address sends nothing. */
  lemma ChangeAddressOutcome(device: byte, newAddress: byte, rs: seq<Reply>, i: nat)
    ensures var e := ChangeAddressEx(device, newAddress, rs, i);
      && (e.result.Ok? <==> 0x08 <= newAddress <= 0x77 && Nth(rs, i).Ack?)
      && (e.result == Err(InvalidAddress(newAddress)) <==> newAddress < 0x08 || newAddress > 0x77)
      && (e.trace == [] <==> newAddress < 0x08 || newAddress > 0x77)
      && (e.trace != [] ==>
            e.trace == [WriteOnlyFrame(device, Addr(I2cSlaveDeviceAddress), newAddress)]
            && e.trace[0].device == device)
      && (e.result.Err? && e.trace != [] ==> e.result.error == BusError)
  {
  }

  /** The device reports FRESH_OUT_OF_RESET == 1 at reply `j`. */
  predicate Booted(rs: seq<Reply>, j: nat)
  {
    Nth(rs, j).Ack? && Byte0(Nth(rs, j).data) == 0x01
  }

  /** The device eventually reports that it has booted. */
  predicate BootsFrom(rs: seq<Reply>, i: nat)
  {
    exists j :: i <= j < |rs| && Booted(rs, j)
  }

  /** `wait_device_booted`: reads FRESH_OUT_OF_RESET until it reads 1,
      ignoring failed reads. */
  function WaitBootedEx(device: byte, rs: seq<Reply>, i: nat): Exchange<()>
    requires BootsFrom(rs, i)
    decreases |rs| - i
  {
    var rf := ReadFrame(device, Addr(SystemFreshOutOfReset), 1);
    if Booted(rs, i) then Exchange([rf], Ok(()))
    else
      assert BootsFrom(rs, i + 1);
      Prepend(rf, WaitBootedEx(device, rs, i + 1))
  }

  /** One poll of the wait, after `sent` has gone out: a read that shows
      the device booted ends it, any other reply (a failed read included)
      polls again. */
  lemma WaitBootedStep(device: byte, rs: seq<Reply>, i0: nat, sent: seq<Transaction>, j: nat)
    requires BootsFrom(rs, i0) && BootsFrom(rs, j)
    requires WaitBootedEx(device, rs, i0) == Splice(sent, WaitBootedEx(device, rs, j))
    ensures j < |rs|
    ensures var rd := Read8Ex(device, Addr(SystemFreshOutOfReset), rs, j);
      Booted(rs, j) <==> rd.result.Ok? && rd.result.value == 0x01
    ensures var rf := ReadFrame(device, Addr(SystemFreshOutOfReset), 1);
      Booted(rs, j) ==> WaitBootedEx(device, rs, i0) == Exchange(sent + [rf], Ok(()))
    ensures !Booted(rs, j) ==> BootsFrom(rs, j + 1)
    ensures var rf := ReadFrame(device, Addr(SystemFreshOutOfReset), 1);
      !Booted(rs, j) ==> WaitBootedEx(device, rs, i0) == Splice(sent + [rf], WaitBootedEx(device, rs, j + 1))
  {
  }

  /** The wait always succeeds; it sends one read per reply up to and
      including the first that reports booted, and no other transaction. */
  lemma {:induction false} WaitBootedOutcome(device: byte, rs: seq<Reply>, i: nat)
    requires BootsFrom(rs, i)
    ensures var e := WaitBootedEx(device, rs, i);
      && e.result.Ok?
      && |e.trace| >= 1
      && Booted(rs, i + |e.trace| - 1)
      && (forall j :: i <= j < i + |e.trace| - 1 ==> !Booted(rs, j))
      && (forall k :: 0 <= k < |e.trace| ==> e.trace[k] == ReadFrame(device, Addr(SystemFreshOutOfReset), 1))
    decreases |rs| - i
  {
    if !Booted(rs, i) {
      assert BootsFrom(rs, i + 1);
      WaitBootedOutcome(device, rs, i + 1);
    }
  }

  /** `power_on_and_init_direct`: pin high (a pin failure stops there),
      the boot wait, then `init_hardware`. */
  function PowerOnAndInitEx(device: byte, s: Settings, pinOk: bool, rs: seq<Reply>, i: nat): Exchange<()>
    requires s.Valid() && BootsFrom(rs, i)
  {
    if !pinOk then Exchange([], Err(GpioPinError))
    else
      var wait := WaitBootedEx(device, rs, i);
      Splice(wait.trace, InitHardwareEx(device, s, rs, i + |wait.trace|))
  }

  /** The settings after `power_on_and_init_direct`: those of
      `init_hardware` if the pin could be driven, otherwise unchanged. */
  function PowerOnSettings(device: byte, s: Settings, pinOk: bool, rs: seq<Reply>, i: nat): (s': Settings)
    requires BootsFrom(rs, i)
    ensures s.Valid() ==> s'.Valid()
  {
    if !pinOk then s else InitSettings(device, s, rs, i + |WaitBootedEx(device, rs, i).trace|)
  }

  /** Power-on fails with a pin error, sending nothing, iff the pin cannot
      be driven high; otherwise nothing is configured before the device
      reports booted, and the power-on succeeds iff the initialisation
      does. */
  lemma PowerOnAndInitOutcome(device: byte, s: Settings, pinOk: bool, rs: seq<Reply>, i: nat)
    requires s.Valid() && BootsFrom(rs, i)
    ensures var e := PowerOnAndInitEx(device, s, pinOk, rs, i);
      && (e.result == Err(GpioPinError) <==> !pinOk)
      && (!pinOk ==> e.trace == [])
      && (pinOk ==>
            var n := |WaitBootedEx(device, rs, i).trace|;
            && n >= 1 && Booted(rs, i + n - 1)
            && (forall k :: 0 <= k < n ==> e.trace[k] == ReadFrame(device, Addr(SystemFreshOutOfReset), 1))
            && e.trace[n..] == InitHardwareEx(device, s, rs, i + n).trace
            && (e.result.Ok? <==> AllAcked(rs, i + n, 53)))
  {
    if pinOk {
      var wait := WaitBootedEx(device, rs, i);
      WaitBootedOutcome(device, rs, i);
      InitHardwareOutcome(device, s, rs, i + |wait.trace|);
      var e := PowerOnAndInitEx(device, s, pinOk, rs, i);
      assert e.trace == wait.trace + InitHardwareEx(device, s, rs, i + |wait.trace|).trace;
    }
  }

  /** `read_model_id_direct`. */
  method ReadModelId(d: Sensor) returns (r: Result<byte>)
    modifies d.com
    ensures var e := Read8Ex(d.config.address, Addr(IdentificationModelId), d.com.script, old(|d.com.log|));
      d.com.log == old(d.com.log) + e.trace && r == e.result
  {
    r := d.ReadRegister(Addr(IdentificationModelId));
  }

  /** `read_interrupt_status_direct`: the raw status byte. */
  method ReadInterruptStatus(d: Sensor) returns (r: Result<byte>)
    modifies d.com
    ensures var e := Read8Ex(d.config.address, Addr(ResultInterruptStatusGpio), d.com.script, old(|d.com.log|));
      d.com.log == old(d.com.log) + e.trace && r == e.result
  {
    r := d.ReadRegister(Addr(ResultInterruptStatusGpio));
  }

  /** `clear_interrupt`. */
  method ClearInterrupt(d: Sensor, code: byte) returns (r: Result<()>)
    modifies d.com
    ensures var e := ClearEx(d.config.address, code, d.com.script, old(|d.com.log|));
      d.com.log == old(d.com.log) + e.trace && r == e.result
  {
    r := d.WriteRegister(Addr(SystemInterruptClear), code);
  }

  /** `clear_error_interrupt_direct`. */
  method ClearErrorInterrupt(d: Sensor) returns (r: Result<()>)
    modifies d.com
    ensures var e := ClearEx(d.config.address, ClearError, d.com.script, old(|d.com.log|));
      d.com.log == old(d.com.log) + e.trace && r == e.result
  {
    r := ClearInterrupt(d, ClearError);
  }

  /** `clear_ambient_interrupt_direct`. */
  method ClearAmbientInterrupt(d: Sensor) returns (r: Result<()>)
    modifies d.com
    ensures var e := ClearEx(d.config.address, ClearAmbient, d.com.script, old(|d.com.log|));
      d.com.log == old(d.com.log) + e.trace && r == e.result
  {
    r := ClearInterrupt(d, ClearAmbient);
  }

  /** `clear_range_interrupt_direct`. */
  method ClearRangeInterrupt(d: Sensor) returns (r: Result<()>)
    modifies d.com
    ensures var e := ClearEx(d.config.address, ClearRange, d.com.script, old(|d.com.log|));
      d.com.log == old(d.com.log) + e.trace && r == e.result
  {
    r := ClearInterrupt(d, ClearRange);
  }

  /** `clear_all_interrupts_direct`: one write of the combined code. */
  method ClearAllInterrupts(d: Sensor) returns (r: Result<()>)
    modifies d.com
    ensures var e := ClearEx(d.config.address, ClearAllCode(), d.com.script, old(|d.com.log|));
      d.com.log == old(d.com.log) + e.trace && r == e.result
  {
    r := ClearInterrupt(d, ClearAllCode());
  }

  /** `change_i2c_address_direct`: the address is committed only after the
      device acknowledged the write; nothing else in the configuration
      changes. */
  method ChangeI2cAddress(d: Sensor, newAddress: byte) returns (r: Result<()>)
    modifies d.com, d.config
    ensures var e := ChangeAddressEx(old(d.config.address), newAddress, d.com.script, old(|d.com.log|));
      d.com.log == old(d.com.log) + e.trace && r == e.result
    ensures d.config.Snapshot() == old(d.config.Snapshot()).(address := if r.Ok? then newAddress else old(d.config.address))
  {
    if newAddress < 0x08 || newAddress > 0x77 {
      return Err(InvalidAddress(newAddress));
    }
    r := d.WriteOnlyRegister(Addr(I2cSlaveDeviceAddress), newAddress);
    if r.Err? {
      return;
    }
    d.config.address := newAddress;
  }

  /** `power_off_direct`: drives the shutdown pin low; the bus is not
      used. */
  method PowerOffDirect(d: Sensor, pin: Pin) returns (r: Result<()>)
    modifies pin
    ensures pin.requests == old(pin.requests) + [false]
    ensures r == if PinOk(pin.outcomes, |old(pin.requests)|) then Ok(()) else Err(GpioPinError)
    ensures !pin.high <==> old(!pin.high) || r.Ok?
  {
    var ok := pin.SetLow();
    r := if ok then Ok(()) else Err(GpioPinError);
  }

  /** `wait_device_booted`. */
  method WaitDeviceBooted(d: Sensor) returns (r: Result<()>)
    requires BootsFrom(d.com.script, |d.com.log|)
    modifies d.com
    ensures var e := WaitBootedEx(d.config.address, d.com.script, old(|d.com.log|));
      d.com.log == old(d.com.log) + e.trace && r == e.result
  {
    ghost var a, rs, i0, log0 := d.config.address, d.com.script, |d.com.log|, d.com.log;
    ghost var rf := ReadFrame(a, Addr(SystemFreshOutOfReset), 1);
    WaitBootedStep(a, rs, i0, [], i0);
    var result := d.ReadRegister(Addr(SystemFreshOutOfReset));
    var booted := result.Ok? && result.value == 0x01;
    ghost var sent := [rf];
    while !booted
      invariant d.com.script == rs && d.com.log == log0 + sent && i0 < |d.com.log| <= |rs|
      invariant booted ==> WaitBootedEx(a, rs, i0) == Exchange(sent, Ok(()))
      invariant !booted ==> BootsFrom(rs, |d.com.log|)
      invariant !booted ==> WaitBootedEx(a, rs, i0) == Splice(sent, WaitBootedEx(a, rs, |d.com.log|))
      decreases |rs| - |d.com.log|
    {
      WaitBootedStep(a, rs, i0, sent, |d.com.log|);
      ghost var before := d.com.log;
      result := d.ReadRegister(Addr(SystemFreshOutOfReset));
      booted := result.Ok? && result.value == 0x01;
      assert d.com.log == before + [rf];
      LogSplice(log0, before, d.com.log, sent, Exchange([rf], Ok(())));
      sent := sent + [rf];
    }
    return Ok(());
  }

  /** `power_on_and_init_direct`. */
  method PowerOnAndInitDirect(d: Sensor, pin: Pin) returns (r: Result<()>)
    requires d.Valid() && BootsFrom(d.com.script, |d.com.log|)
    modifies pin, d.com, d.config
    ensures pin.requests == old(pin.requests) + [true]
    ensures d.config.address == old(d.config.address) && d.Valid()
    ensures var ok := PinOk(pin.outcomes, |old(pin.requests)|);
      && d.config.Snapshot() == PowerOnSettings(d.config.address, old(d.config.Snapshot()), ok, d.com.script, old(|d.com.log|))
      && var e := PowerOnAndInitEx(d.config.address, old(d.config.Snapshot()), ok, d.com.script, old(|d.com.log|));
         d.com.log == old(d.com.log) + e.trace && r == e.result
  {
    ghost var a, s0, rs, i0, log0 := d.config.address, d.config.Snapshot(), d.com.script, |d.com.log|, d.com.log;
    var ok := pin.SetHigh();
    if !ok {
      return Err(GpioPinError);
    }
    ghost var wait := WaitBootedEx(a, rs, i0);
    r := WaitDeviceBooted(d);
    ghost var log1 := d.com.log;
    assert |log1| == i0 + |wait.trace|;
    r := InitHardware(d);
    LogSplice(log0, log1, d.com.log, wait.trace, InitHardwareEx(a, s0, rs, i0 + |wait.trace|));
  }
}
