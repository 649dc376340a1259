/**
 The command-line tool's own register access: 32-bit registers of the hub,
 read and written with vendor control requests, each value carried as four
 big-endian bytes, and the three power commands built on them.
 */
module GpioCtl {

  newtype u8 = x: int | 0 <= x < 0x100
  newtype u16 = x: int | 0 <= x < 0x1_0000
  newtype u32 = x: int | 0 <= x < 0x1_0000_0000

  datatype Option<T> = None | Some(value: T)

  // ---------------------------------------------------------------- big-endian bytes

  function Pow256(n: nat): (p: nat)
    ensures p >= 1
  {
    if n == 0 then 1 else 256 * Pow256(n - 1)
  }

  /** The number whose big-endian bytes are `bs` (most significant byte first). */
  function BeValue(bs: seq<u8>): (v: nat)
    ensures v < Pow256(|bs|)
  {
    if bs == [] then 0 else BeValue(bs[..|bs| - 1]) * 256 + bs[|bs| - 1] as nat
  }

  /** The `n` big-endian bytes of `v`. */
  function BeBytes(v: nat, n: nat): (bs: seq<u8>)
    requires v < Pow256(n)
    ensures |bs| == n
  {
    if n == 0 then [] else BeBytes(v / 256, n - 1) + [(v % 256) as u8]
  }

  /** Decoding the big-endian bytes of a number gives the number back. */
  lemma {:induction false} BeValueOfBeBytes(v: nat, n: nat)
    requires v < Pow256(n)
    ensures BeValue(BeBytes(v, n)) == v
  {
    if n > 0 {
      var bs := BeBytes(v, n);
      assert bs[..n - 1] == BeBytes(v / 256, n - 1);
      BeValueOfBeBytes(v / 256, n - 1);
    }
  }

  /** Encoding the value of a byte sequence gives the same bytes back. */
  lemma {:induction false} BeBytesOfBeValue(bs: seq<u8>)
    ensures BeBytes(BeValue(bs), |bs|) == bs
  {
    if bs != [] {
      var n := |bs|;
      var init := bs[..n - 1];
      BeBytesOfBeValue(init);
      assert BeValue(bs) / 256 == BeValue(init);
      assert bs == init + [bs[n - 1]];
    }
  }

  /** The value of four big-endian bytes, written out. */
  lemma BeValueOfFour(buf: seq<u8>)
    requires |buf| == 4
    ensures BeValue(buf) == buf[0] as int * 0x100_0000 + buf[1] as int * 0x1_0000 + buf[2] as int * 0x100 + buf[3] as int
  {
    assert buf[..3][..2] == buf[..2];
    assert buf[..2][..1] == buf[..1];
    assert buf[..1][..0] == [];
    var b0, b1, b2, b3 := buf[0] as int, buf[1] as int, buf[2] as int, buf[3] as int;
    assert BeValue(buf[..1]) == b0;
    assert BeValue(buf[..2]) == b0 * 0x100 + b1;
    assert BeValue(buf[..3]) == (b0 * 0x100 + b1) * 0x100 + b2;
    assert BeValue(buf) == ((b0 * 0x100 + b1) * 0x100 + b2) * 0x100 + b3;
  }

  /** u32::to_be_bytes: four bytes, most significant first. */
  function ToBeBytes(v: u32): (buf: seq<u8>)
    ensures |buf| == 4
    ensures v as int == buf[0] as int * 0x100_0000 + buf[1] as int * 0x1_0000 + buf[2] as int * 0x100 + buf[3] as int
  {
    var buf := BeBytes(v as nat, 4);
    BeValueOfBeBytes(v as nat, 4);
    BeValueOfFour(buf);
    buf
  }

  /** u32::from_be_bytes: the first of the four bytes is the most significant. */
  function FromBeBytes(buf: seq<u8>): (v: u32)
    requires |buf| == 4
    ensures v as int == buf[0] as int * 0x100_0000 + buf[1] as int * 0x1_0000 + buf[2] as int * 0x100 + buf[3] as int
  {
    BeValueOfFour(buf);
    BeValue(buf) as u32
  }

  /** from_be_bytes undoes to_be_bytes ... */
  lemma FromToBeBytes(v: u32)
    ensures FromBeBytes(ToBeBytes(v)) == v
  {
  }

  /** ... and to_be_bytes undoes from_be_bytes. */
  lemma ToFromBeBytes(buf: seq<u8>)
    requires |buf| == 4
    ensures ToBeBytes(FromBeBytes(buf)) == buf
  {
    BeBytesOfBeValue(buf);
  }

  // ---------------------------------------------------------------- control requests

  datatype ControlType = Standard | Class | Vendor
  datatype Recipient = Device | Interface | Endpoint | Other

  /** The setup fields of a control transfer. */
  datatype Control = Control(controlType: ControlType, recipient: Recipient, request: u8, value: u16, index: u16)

  /** read_reg's request: vendor request 4 to the interface, the address in `value`, index 0. */
  function ReadRegRequest(addr: u16): (c: Control)
    ensures c.controlType == Vendor && c.recipient == Interface
    ensures c.request == 4 && c.value == addr && c.index == 0
  {
    Control(Vendor, Interface, 4, addr, 0)
  }

  /** write_reg's request: vendor request 3, otherwise the same as read_reg's. */
  function WriteRegRequest(addr: u16): (c: Control)
    ensures c.controlType == Vendor && c.recipient == Interface
    ensures c.request == 3 && c.value == addr && c.index == 0
  {
    Control(Vendor, Interface, 3, addr, 0)
  }

  /** What a setup packet asks of the hub's register file. */
  datatype RegisterOp = ReadOp(addr: u16) | WriteOp(addr: u16)

  /** The register-access protocol: vendor requests 4 (read) and 3 (write) to the interface, index 0. */
  function DecodeRequest(c: Control): Option<RegisterOp> {
    if c.controlType != Vendor || c.recipient != Interface || c.index != 0 then None
    else if c.request == 4 then Some(ReadOp(c.value))
    else if c.request == 3 then Some(WriteOp(c.value))
    else None
  }

  /**
   read_reg's and write_reg's requests are exactly the ones the protocol reads
   as a register read and a register write of that address.
   */
  lemma RequestsDecode(c: Control, addr: u16)
    ensures DecodeRequest(c) == Some(ReadOp(addr)) <==> c == ReadRegRequest(addr)
    ensures DecodeRequest(c) == Some(WriteOp(addr)) <==> c == WriteRegRequest(addr)
  {
  }

  // ---------------------------------------------------------------- the hub

  /** Every 16-bit address holds a 32-bit register. */
  ghost predicate Total(regs: map<u16, u32>) {
    forall a: u16 :: a in regs
  }

  /** The hub's register file, as the vendor requests reach it. */
  class Hub {
    var regs: map<u16, u32>

    ghost predicate Valid()
      reads this
    {
      Total(regs)
    }

    constructor (init: map<u16, u32>)
      requires Total(init)
      ensures Valid() && regs == init
    {
      regs := init;
    }

    /** A control-in transfer: a register read answers with the register's big-endian bytes. */
    method ControlIn(setup: Control) returns (buf: Option<seq<u8>>)
      requires Valid()
      ensures DecodeRequest(setup).Some? && DecodeRequest(setup).value.ReadOp? ==>
                buf == Some(ToBeBytes(regs[setup.value]))
      ensures !(DecodeRequest(setup).Some? && DecodeRequest(setup).value.ReadOp?) ==> buf == None
    {
      match DecodeRequest(setup)
      case Some(ReadOp(addr)) => buf := Some(ToBeBytes(regs[addr]));
      case _ => buf := None;
    }

    /** A control-out transfer: a register write of four bytes stores their big-endian value. */
    method ControlOut(setup: Control, data: seq<u8>) returns (ok: bool)
      requires Valid()
      modifies this
      ensures Valid()
      ensures ok == (DecodeRequest(setup).Some? && DecodeRequest(setup).value.WriteOp? && |data| == 4)
      ensures ok ==> regs == old(regs)[setup.value := FromBeBytes(data)]
      ensures !ok ==> regs == old(regs)
    {
      match DecodeRequest(setup)
      case Some(WriteOp(addr)) =>
        if |data| == 4 {
          regs := regs[addr := FromBeBytes(data)];
          ok := true;
        } else {
          ok := false;
        }
      case _ => ok := false;
    }
  }

  /** read_reg: the register's value, carried as four big-endian bytes. */
  method ReadReg(hub: Hub, addr: u16) returns (v: u32)
    requires hub.Valid()
    ensures v == hub.regs[addr]
  {
    var buf := hub.ControlIn(ReadRegRequest(addr));
    assert buf.Some?;
    v := FromBeBytes(buf.value);
    FromToBeBytes(hub.regs[addr]);
  }

  /** write_reg: the register takes the value; no other register changes. */
  method WriteReg(hub: Hub, addr: u16, value: u32)
    requires hub.Valid()
    modifies hub
    ensures hub.Valid()
    ensures hub.regs == old(hub.regs)[addr := value]
  {
    var buf := ToBeBytes(value);
    var ok := hub.ControlOut(WriteRegRequest(addr), buf);
    assert ok;
    FromToBeBytes(value);
  }

  // ---------------------------------------------------------------- power commands

  /** The register at 0x0830; writing 1 to it makes GPIO0 an output. */
  const GpioDirAddr: u16 := 0x0830
  /** The register at 0x0834, whose bit 0 the power commands set or clear. */
  const GpioOutAddr: u16 := 0x0834

  /** `reg |= 1`: bit 0 set, bits 1 to 31 kept. */
  function SetBit0(reg: u32): (r: u32)
    ensures r % 2 == 1 && r / 2 == reg / 2
  {
    if reg % 2 == 1 then reg else reg + 1
  }

  /** `reg &= !1`: bit 0 cleared, bits 1 to 31 kept. */
  function ClearBit0(reg: u32): (r: u32)
    ensures r % 2 == 0 && r / 2 == reg / 2
  {
    reg - reg % 2
  }

  datatype Command = PwrOn | PwrOff | PwrState

  /**
   The registers after a command. PwrOn and PwrOff overwrite the whole
   direction register with 1 and then set (PwrOn) or clear (PwrOff) bit 0 of the
   output register, keeping its other 31 bits; PwrState touches nothing.
   */
  function AfterCommand(regs: map<u16, u32>, cmd: Command): (regs': map<u16, u32>)
    requires Total(regs)
    ensures Total(regs')
    ensures cmd == PwrState ==> regs' == regs
    ensures cmd != PwrState ==>
              && regs'[GpioDirAddr] == 1
              && regs'[GpioOutAddr] % 2 == (if cmd == PwrOn then 1 else 0)
              && regs'[GpioOutAddr] / 2 == regs[GpioOutAddr] / 2
              && forall a :: a != GpioDirAddr && a != GpioOutAddr ==> regs'[a] == regs[a]
  {
    match cmd
    case PwrOn => regs[GpioDirAddr := 1][GpioOutAddr := SetBit0(regs[GpioOutAddr])]
    case PwrOff => regs[GpioDirAddr := 1][GpioOutAddr := ClearBit0(regs[GpioOutAddr])]
    case PwrState => regs
  }

  /** Running a command twice leaves the registers as running it once does. */
  lemma AfterCommandIdempotent(regs: map<u16, u32>, cmd: Command)
    requires Total(regs)
    ensures AfterCommand(AfterCommand(regs, cmd), cmd) == AfterCommand(regs, cmd)
  {
  }

  /** The command arms of main. */
  method Execute(hub: Hub, cmd: Command)
    requires hub.Valid()
    modifies hub
    ensures hub.Valid()
    ensures hub.regs == AfterCommand(old(hub.regs), cmd)
  {
    match cmd
    case PwrOn =>
      WriteReg(hub, GpioDirAddr, 1);
      var reg := ReadReg(hub, GpioOutAddr);
      reg := SetBit0(reg);
      WriteReg(hub, GpioOutAddr, reg);
    case PwrOff =>
      WriteReg(hub, GpioDirAddr, 1);
      var reg := ReadReg(hub, GpioOutAddr);
      reg := ClearBit0(reg);
      WriteReg(hub, GpioOutAddr, reg);
    case PwrState =>
  }
}
