/** Framing of register accesses on the I2C bus (src/i2c_interface.rs): a
    register address is sent as its two big-endian bytes, followed by the
    big-endian bytes of the value for a write. Every register write except
    the write-only one is issued as a write-read with a one-byte read
    buffer. */
module Framing {
  import opened Bytes

  /** One bus transaction addressed to a 7-bit device address. */
  datatype Transaction =
    | WriteRead(device: byte, bytes: seq<byte>, readLen: nat)
    | Write(device: byte, bytes: seq<byte>)

  /** `read_register*`: the register address, then `n` bytes read back. */
  function ReadFrame(device: byte, reg: u16, n: nat): Transaction
  {
    WriteRead(device, U16ToBe(reg), n)
  }

  /** `write_register`: `[reg_hi, reg_lo, code]` over write-read. */
  function Write8Frame(device: byte, reg: u16, code: byte): Transaction
  {
    WriteRead(device, U16ToBe(reg) + [code], 1)
  }

  /** `write_only_register`: the same three bytes over a plain write. */
  function WriteOnlyFrame(device: byte, reg: u16, code: byte): Transaction
  {
    Write(device, U16ToBe(reg) + [code])
  }

  /** `write_register_16bit`: `[reg_hi, reg_lo, code_hi, code_lo]`. */
  function Write16Frame(device: byte, reg: u16, code: u16): Transaction
  {
    WriteRead(device, U16ToBe(reg) + U16ToBe(code), 1)
  }

  /** `write_register_32bit` as written: the register is widened to a u32
      and bytes 0 and 1 of its four big-endian bytes are sent, which are
      the two high bytes of the widened value. */
  function Write32FrameAsWritten(device: byte, reg: u16, code: u32): Transaction
  {
    WriteRead(device, U32ToBe(reg)[..2] + U32ToBe(code), 1)
  }

  /** `write_register_32bit` as intended: the register's own two bytes. */
  function Write32Frame(device: byte, reg: u16, code: u32): Transaction
  {
    WriteRead(device, U16ToBe(reg) + U32ToBe(code), 1)
  }

  /** The register a frame addresses, as the device decodes it from the
      first two bytes. */
  function TargetRegister(t: Transaction): int
  {
    if |t.bytes| < 2 then -1 else t.bytes[0] as int * 0x100 + t.bytes[1]
  }

  /** The bytes that follow the register address. */
  function Payload(t: Transaction): seq<byte>
  {
    if |t.bytes| < 2 then [] else t.bytes[2..]
  }

  /** Every frame decodes back to the register and value it was built from,
      and is sent to the given device. */
  lemma FramesRoundTrip(device: byte, reg: u16, code: byte, code16: u16, code32: u32)
    ensures TargetRegister(ReadFrame(device, reg, 1)) == reg && Payload(ReadFrame(device, reg, 1)) == []
    ensures TargetRegister(Write8Frame(device, reg, code)) == reg && Payload(Write8Frame(device, reg, code)) == [code]
    ensures TargetRegister(WriteOnlyFrame(device, reg, code)) == reg
    ensures Payload(WriteOnlyFrame(device, reg, code)) == Payload(Write8Frame(device, reg, code))
    ensures WriteOnlyFrame(device, reg, code).bytes == Write8Frame(device, reg, code).bytes
    ensures TargetRegister(Write16Frame(device, reg, code16)) == reg
    ensures |Payload(Write16Frame(device, reg, code16))| == 2
    ensures U16FromBe(Payload(Write16Frame(device, reg, code16))) == code16
    ensures TargetRegister(Write32Frame(device, reg, code32)) == reg
    ensures |Payload(Write32Frame(device, reg, code32))| == 4
    ensures U32FromBe(Payload(Write32Frame(device, reg, code32))) == code32
    ensures ReadFrame(device, reg, 1).device == device && Write8Frame(device, reg, code).device == device
    ensures WriteOnlyFrame(device, reg, code).device == device
    ensures Write16Frame(device, reg, code16).device == device && Write32Frame(device, reg, code32).device == device
  {
    var f16 := Write16Frame(device, reg, code16);
    assert Payload(f16) == U16ToBe(code16);
    U16RoundTrip(code16);
    var f32 := Write32Frame(device, reg, code32);
    assert Payload(f32) == U32ToBe(code32);
    U32RoundTrip(code32);
  }

  /** Two frames of the same kind are equal only if they address the same
      register with the same value. */
  lemma {:induction false} Write8FrameInjective(device: byte, reg1: u16, code1: byte, reg2: u16, code2: byte)
    requires Write8Frame(device, reg1, code1) == Write8Frame(device, reg2, code2)
    ensures reg1 == reg2 && code1 == code2
  {
    U16RoundTrip(reg1);
    U16RoundTrip(reg2);
    assert U16ToBe(reg1) == Write8Frame(device, reg1, code1).bytes[..2];
    assert U16ToBe(reg2) == Write8Frame(device, reg2, code2).bytes[..2];
  }

  /** The 32-bit write as written addresses register 0 whatever register it
      was asked to write, while its value bytes are right. */
  lemma Write32AsWrittenTargetsZero(device: byte, reg: u16, code: u32)
    ensures TargetRegister(Write32FrameAsWritten(device, reg, code)) == 0
    ensures Payload(Write32FrameAsWritten(device, reg, code)) == Payload(Write32Frame(device, reg, code))
    ensures reg != 0 ==> Write32FrameAsWritten(device, reg, code) != Write32Frame(device, reg, code)
  {
    var t := Write32FrameAsWritten(device, reg, code);
    assert t.bytes[0] == 0 && t.bytes[1] == 0;
    assert TargetRegister(Write32Frame(device, reg, code)) == reg;
  }

  /** A concrete case: a 32-bit write to register 0x0212 lands on 0x0000. */
  lemma Write32AsWrittenExample()
    ensures Write32FrameAsWritten(0x29, 0x0212, 7).bytes == [0, 0, 0, 0, 0, 7]
    ensures Write32Frame(0x29, 0x0212, 7).bytes == [0x02, 0x12, 0, 0, 0, 7]
  {
  }
}
