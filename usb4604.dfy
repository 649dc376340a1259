/**
 The GPIO registers of the USB4604 hub chip, as the board-revision HALs see them.

 The register definitions themselves (addresses, widths, bit positions) are not
 part of this model: a register is named by its GPIO bank and its kind
 (direction, output or input), and a bit inside it by the pin it belongs to.
 Two registers with different names are therefore different registers, and two
 fields with different names in one register are different bits; nothing else
 about the layout is assumed.
 */
module Usb4604 {

  /** The GPIO banks the HALs use; each has a direction, an output and an input register. */
  datatype GpioBank = Bank0_7 | Bank8_10 | Bank17_20 | Bank41_45

  /** Gpio0_7Dir is DirReg(Bank0_7), Gpio17_20Output is OutputReg(Bank17_20), and so on. */
  datatype Reg = DirReg(bank: GpioBank) | OutputReg(bank: GpioBank) | InputReg(bank: GpioBank)

  /**
   A bit of a register: Gpio(n) is the field of pin n (gpioN_out_en in a
   direction register, gpioN_out in an output register, gpioN_in in an input
   register); Reserved(k) stands for any other bit of the register.
   */
  datatype Field = Gpio(pin: nat) | Reserved(index: nat)

  /** A register value: the set of its bits that read 1. */
  type Word = set<Field>

  /** One bit of the chip: a register and a field of it. */
  datatype Bit = Bit(reg: Reg, field: Field)

  /** The contents of the chip's GPIO registers. */
  type Regs = map<Reg, Word>

  /** Every register can be read. */
  ghost predicate Total(regs: Regs) {
    forall r: Reg :: r in regs
  }

  /** A pin of a bank; its bits are gpioN_out_en, gpioN_out and gpioN_in of that bank. */
  datatype Loc = Loc(bank: GpioBank, pin: nat) {
    function DirBit(): Bit { Bit(DirReg(bank), Gpio(pin)) }
    function OutBit(): Bit { Bit(OutputReg(bank), Gpio(pin)) }
    function InBit(): Bit { Bit(InputReg(bank), Gpio(pin)) }

    /** The pin number lies in the range its bank's name covers. */
    predicate InBank() {
      match bank
      case Bank0_7 => pin <= 7
      case Bank8_10 => 8 <= pin <= 10
      case Bank17_20 => 17 <= pin <= 20
      case Bank41_45 => 41 <= pin <= 45
    }
  }

  /** The level a bit reads. */
  function Get(regs: Regs, b: Bit): bool
    requires Total(regs)
  {
    b.field in regs[b.reg]
  }

  /** The register value `w` with field `f` set to `v` (a generated `set_X(v)` accessor). */
  function SetField(w: Word, f: Field, v: bool): (w': Word)
    ensures (f in w') == v
    ensures forall g :: g != f ==> (g in w' <==> g in w)
  {
    if v then w + {f} else w - {f}
  }

  /** Every bit outside `changed` reads the same in `a` and in `b`. */
  ghost predicate SameExcept(a: Regs, b: Regs, changed: set<Bit>)
    requires Total(a) && Total(b)
  {
    forall x: Bit :: x !in changed ==> Get(a, x) == Get(b, x)
  }

  /**
   The registers after one read-modify-write that sets bit `b` to `v`: that bit
   reads `v` and every other bit of every register is unchanged.
   */
  function With(regs: Regs, b: Bit, v: bool): (regs': Regs)
    requires Total(regs)
    ensures Total(regs')
    ensures Get(regs', b) == v
    ensures SameExcept(regs, regs', {b})
  {
    regs[b.reg := SetField(regs[b.reg], b.field, v)]
  }

  /** Register contents are determined by the levels of their bits. */
  lemma BitsDetermineRegs(a: Regs, b: Regs)
    requires Total(a) && Total(b)
    requires SameExcept(a, b, {})
    ensures a == b
  {
    forall r: Reg
      ensures a[r] == b[r]
    {
      forall f: Field
        ensures f in a[r] <==> f in b[r]
      {
        assert Get(a, Bit(r, f)) == Get(b, Bit(r, f));
      }
    }
  }

  /**
   The chip behind an open interface. Every HAL call receives it; the only
   state change the HALs make is `modify_reg`, one read-modify-write of one
   field of one register.
   */
  class Chip {
    var regs: Regs

    ghost predicate Valid()
      reads this
    {
      Total(regs)
    }

    constructor (init: Regs)
      requires Total(init)
      ensures Valid() && regs == init
    {
      regs := init;
    }

    /** One modify_reg call: read the register, set one field of it, write it back. */
    method ModifyReg(b: Bit, v: bool)
      requires Valid()
      modifies this
      ensures Valid()
      ensures regs == With(old(regs), b, v)
    {
      var w := regs[b.reg];
      regs := regs[b.reg := SetField(w, b.field, v)];
    }
  }
}
