/** The driver object `VL6180X<MODE, I2C>` and its register access layer
    (src/i2c_interface.rs): every access is one bus transaction addressed to
    the configured device address. */
module Driver {
  import opened Bytes
  import opened Errors
  import opened Framing
  import opened I2cBus
  import opened Configuration
  import opened Modes

  // What each register access does on the bus, from reply position `i`.

  /** `read_register`: one byte read back. */
  function Read8Ex(device: byte, reg: u16, rs: seq<Reply>, i: nat): Exchange<byte>
  {
    Exchange([ReadFrame(device, reg, 1)],
             if Nth(rs, i).Ack? then Ok(Byte0(Nth(rs, i).data)) else Err(BusError))
  }

  /** `read_register_16bit`: two bytes, big-endian. */
  function Read16Ex(device: byte, reg: u16, rs: seq<Reply>, i: nat): Exchange<u16>
  {
    Exchange([ReadFrame(device, reg, 2)],
             if Nth(rs, i).Ack? then Ok(U16FromBe(Fill(Nth(rs, i).data, 2))) else Err(BusError))
  }

  /** `read_register_32bit`: four bytes, big-endian. */
  function Read32Ex(device: byte, reg: u16, rs: seq<Reply>, i: nat): Exchange<u32>
  {
    Exchange([ReadFrame(device, reg, 4)],
             if Nth(rs, i).Ack? then Ok(U32FromBe(Fill(Nth(rs, i).data, 4))) else Err(BusError))
  }

  /** `write_only_register`: the frame over a plain write. */
  function WriteOnlyEx(device: byte, reg: u16, code: byte, rs: seq<Reply>, i: nat): Exchange<()>
  {
    WriteOne(WriteOnlyFrame(device, reg, code), rs, i)
  }

  /** `write_register` / `write_register_16bit`, by planned write. */
  function WriteEx(device: byte, w: RegWrite, rs: seq<Reply>, i: nat): Exchange<()>
  {
    WriteOne(Frame(device, w), rs, i)
  }

  /** A single write as a chain of one. */
  lemma RunWritesOne(device: byte, w: RegWrite, rs: seq<Reply>, i: nat)
    ensures RunWrites(device, [w], rs, i) == WriteEx(device, w, rs, i)
  {
    assert [w][1..] == [];
  }

  /** A multi-byte read returns exactly the bytes the device sent (zero
      filled), decoded most significant byte first: encoding the value
      again gives the received buffer back. */
  lemma ReadValuesAreBigEndian(device: byte, reg: u16, rs: seq<Reply>, i: nat)
    ensures var e := Read16Ex(device, reg, rs, i);
      e.result.Ok? ==> U16ToBe(e.result.value) == Fill(Nth(rs, i).data, 2)
    ensures var e := Read32Ex(device, reg, rs, i);
      e.result.Ok? ==> U32ToBe(e.result.value) == Fill(Nth(rs, i).data, 4)
    ensures Read8Ex(device, reg, rs, i).result.Ok? <==> Nth(rs, i).Ack?
    ensures Read16Ex(device, reg, rs, i).result.Ok? <==> Nth(rs, i).Ack?
    ensures Read32Ex(device, reg, rs, i).result.Ok? <==> Nth(rs, i).Ack?
  {
    if Nth(rs, i).Ack? {
      U16BytesRoundTrip(Fill(Nth(rs, i).data, 2));
      U32BytesRoundTrip(Fill(Nth(rs, i).data, 4));
    }
  }

  /** `ts`, then the exchange `e`. */
  function Splice<T>(ts: seq<Transaction>, e: Exchange<T>): Exchange<T>
  {
    Exchange(ts + e.trace, e.result)
  }

  /** One step of a write chain: after the first `k` writes, the `k`-th
      is sent and the chain either stops there or goes on. */
  lemma ChainStep(device: byte, ws: seq<RegWrite>, k: nat, rs: seq<Reply>, i0: nat)
    requires k < |ws|
    requires RunWrites(device, ws, rs, i0) == Splice(Frames(device, ws[..k]), RunWrites(device, ws[k..], rs, i0 + k))
    ensures Frames(device, ws[..k + 1]) == Frames(device, ws[..k]) + [Frame(device, ws[k])]
    ensures Nth(rs, i0 + k).Ack? ==>
      RunWrites(device, ws, rs, i0) == Splice(Frames(device, ws[..k + 1]), RunWrites(device, ws[k + 1..], rs, i0 + k + 1))
    ensures Nth(rs, i0 + k).Nack? ==>
      RunWrites(device, ws, rs, i0) == Exchange(Frames(device, ws[..k + 1]), Err(BusError))
  {
    assert ws[k..][1..] == ws[k + 1..];
    assert Frames(device, ws[..k + 1]) == Frames(device, ws[..k]) + [Frame(device, ws[k])];
  }

  /** `VL6180X<MODE, I2C>`: the mode marker, the bus and the owned
      configuration. `didTimeout` is the flag an older revision's blocking
      reads set on timeout. */
  class Sensor {
    var mode: ModeTag
    var didTimeout: bool
    const com: Bus
    const config: Config

    /** `Self { mode, com, config }`. */
    constructor(mode: ModeTag, com: Bus, config: Config)
      ensures this.mode == mode && this.com == com && this.config == config && !didTimeout
    {
      this.mode := mode;
      this.com := com;
      this.config := config;
      didTimeout := false;
    }

    /** The configuration invariant that `Config::new` establishes and the
        corrected setters keep; the ambient inter-measurement setter as
        written can break it (see `Init.AmbientSetterAsWrittenBreaksInit`). */
    predicate Valid()
      reads this, config
    {
      config.Snapshot().Valid()
    }

    method ReadRegister(reg: u16) returns (r: Result<byte>)
      modifies com
      ensures var e := Read8Ex(config.address, reg, com.script, old(|com.log|));
        com.log == old(com.log) + e.trace && r == e.result
    {
      var reply := com.Transact(ReadFrame(config.address, reg, 1));
      if reply.Nack? {
        return Err(BusError);
      }
      return Ok(Byte0(reply.data));
    }

    method ReadRegister16(reg: u16) returns (r: Result<u16>)
      modifies com
      ensures var e := Read16Ex(config.address, reg, com.script, old(|com.log|));
        com.log == old(com.log) + e.trace && r == e.result
    {
      var reply := com.Transact(ReadFrame(config.address, reg, 2));
      if reply.Nack? {
        return Err(BusError);
      }
      return Ok(U16FromBe(Fill(reply.data, 2)));
    }

    method ReadRegister32(reg: u16) returns (r: Result<u32>)
      modifies com
      ensures var e := Read32Ex(config.address, reg, com.script, old(|com.log|));
        com.log == old(com.log) + e.trace && r == e.result
    {
      var reply := com.Transact(ReadFrame(config.address, reg, 4));
      if reply.Nack? {
        return Err(BusError);
      }
      return Ok(U32FromBe(Fill(reply.data, 4)));
    }

    method WriteOnlyRegister(reg: u16, code: byte) returns (r: Result<()>)
      modifies com
      ensures var e := WriteOnlyEx(config.address, reg, code, com.script, old(|com.log|));
        com.log == old(com.log) + e.trace && r == e.result
    {
      var reply := com.Transact(WriteOnlyFrame(config.address, reg, code));
      r := if reply.Ack? then Ok(()) else Err(BusError);
    }

    method WriteRegister(reg: u16, code: byte) returns (r: Result<()>)
      modifies com
      ensures var e := WriteEx(config.address, Write8(reg, code), com.script, old(|com.log|));
        com.log == old(com.log) + e.trace && r == e.result
    {
      var reply := com.Transact(Write8Frame(config.address, reg, code));
      r := if reply.Ack? then Ok(()) else Err(BusError);
    }

    method WriteRegister16(reg: u16, code: u16) returns (r: Result<()>)
      modifies com
      ensures var e := WriteEx(config.address, Write16(reg, code), com.script, old(|com.log|));
        com.log == old(com.log) + e.trace && r == e.result
    {
      var reply := com.Transact(Write16Frame(config.address, reg, code));
      r := if reply.Ack? then Ok(()) else Err(BusError);
    }

    /** `write_register_32bit` as written (see `Write32FrameAsWritten`). */
    method WriteRegister32AsWritten(reg: u16, code: u32) returns (r: Result<()>)
      modifies com
      ensures var e := WriteOne(Write32FrameAsWritten(config.address, reg, code), com.script, old(|com.log|));
        com.log == old(com.log) + e.trace && r == e.result
    {
      var wide: u32 := reg;
      var regBytes := U32ToBe(wide);
      var reply := com.Transact(WriteRead(config.address, regBytes[..2] + U32ToBe(code), 1));
      r := if reply.Ack? then Ok(()) else Err(BusError);
    }

    /** `write_register_32bit` sending the register's own two bytes. */
    method WriteRegister32(reg: u16, code: u32) returns (r: Result<()>)
      modifies com
      ensures var e := WriteOne(Write32Frame(config.address, reg, code), com.script, old(|com.log|));
        com.log == old(com.log) + e.trace && r == e.result
    {
      var reply := com.Transact(Write32Frame(config.address, reg, code));
      r := if reply.Ack? then Ok(()) else Err(BusError);
    }

    /** One planned write, by width. */
    method WriteOneRegister(w: RegWrite) returns (r: Result<()>)
      modifies com
      ensures com.log == old(com.log) + [Frame(config.address, w)]
      ensures r == WriteEx(config.address, w, com.script, old(|com.log|)).result
    {
      match w {
        case Write8(reg, v) => r := WriteRegister(reg, v);
        case Write16(reg, v) => r := WriteRegister16(reg, v);
      }
    }

    /** A chain of register writes, each propagated with `?`. */
    method WriteRegisters(ws: seq<RegWrite>) returns (r: Result<()>)
      modifies com
      ensures var e := RunWrites(config.address, ws, com.script, old(|com.log|));
        com.log == old(com.log) + e.trace && r == e.result
      ensures r.Ok? ==> |com.log| == old(|com.log|) + |ws|
    {
      var a := config.address;
      ghost var rs := com.script;
      ghost var i0 := |com.log|;
      ghost var log0 := com.log;
      var k := 0;
      while k < |ws|
        invariant 0 <= k <= |ws|
        invariant |com.log| == i0 + k
        invariant com.log == log0 + Frames(a, ws[..k])
        invariant RunWrites(a, ws, rs, i0) == Splice(Frames(a, ws[..k]), RunWrites(a, ws[k..], rs, i0 + k))
      {
        ChainStep(a, ws, k, rs, i0);
        var step := WriteOneRegister(ws[k]);
        if step.Err? {
          return Err(BusError);
        }
        k := k + 1;
      }
      assert ws[k..] == [];
      return Ok(());
    }
  }
}
