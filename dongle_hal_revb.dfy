/**
 The rev A/B dongle HAL: the power switch for the attached device, its fault
 line, and the strap bit that tells the board revisions apart. PIO0 and PIO10
 are wired the same way on rev C boards.
 */
module DongleHalRevB {
  import opened Usb4604

  /** PIO0 drives PWR_EN_N: the power switch is on when the pin is low. */
  const PwrEnLoc: Loc := Loc(Bank0_7, 0)

  /** PIO10 senses PWR_FAIL_N: a fault pulls the pin low. */
  const PwrFailLoc: Loc := Loc(Bank8_10, 10)

  /** PIO9 is strapped high on rev C boards. */
  const RevSenseLoc: Loc := Loc(Bank8_10, 9)

  /**
   The registers after dev_power_ctl(pwrOn): PIO0 is an output and its output
   bit is the inverse of `pwrOn`; no other bit changes.
   */
  function AfterDevPowerCtl(regs: Regs, pwrOn: bool): (regs': Regs)
    requires Total(regs)
    ensures Total(regs')
    ensures Get(regs', PwrEnLoc.DirBit())
    ensures Get(regs', PwrEnLoc.OutBit()) == !pwrOn
    ensures SameExcept(regs, regs', {PwrEnLoc.DirBit(), PwrEnLoc.OutBit()})
  {
    var dirSet := With(regs, PwrEnLoc.DirBit(), true);
    With(dirSet, PwrEnLoc.OutBit(), !pwrOn)
  }

  method DevPowerCtl(chip: Chip, pwrOn: bool)
    requires chip.Valid()
    modifies chip
    ensures chip.Valid()
    ensures chip.regs == AfterDevPowerCtl(old(chip.regs), pwrOn)
  {
    chip.ModifyReg(Bit(DirReg(Bank0_7), Gpio(0)), true);
    chip.ModifyReg(Bit(OutputReg(Bank0_7), Gpio(0)), !pwrOn);
  }

  /**
   is_dev_power_on: power is on exactly when gpio0_out of Gpio0_7Output reads 0
   (PWR_EN_N is active low), whatever PIO0's direction bit says.
   */
  function IsDevPowerOn(regs: Regs): (on: bool)
    requires Total(regs)
    ensures on <==> Gpio(0) !in regs[OutputReg(Bank0_7)]
  {
    !Get(regs, PwrEnLoc.OutBit())
  }

  /** Switching the power and then asking for its state gives back what was asked for. */
  lemma DevPowerRoundTrip(regs: Regs, pwrOn: bool)
    requires Total(regs)
    ensures IsDevPowerOn(AfterDevPowerCtl(regs, pwrOn)) == pwrOn
  {
  }

  /** Switching the power twice the same way is the same as switching it once. */
  lemma DevPowerCtlIdempotent(regs: Regs, pwrOn: bool)
    requires Total(regs)
    ensures AfterDevPowerCtl(AfterDevPowerCtl(regs, pwrOn), pwrOn) == AfterDevPowerCtl(regs, pwrOn)
  {
    var once := AfterDevPowerCtl(regs, pwrOn);
    var twice := AfterDevPowerCtl(once, pwrOn);
    BitsDetermineRegs(once, twice);
  }

  /** The last of several power switchings decides the power state. */
  lemma DevPowerLastWins(regs: Regs, first: bool, second: bool)
    requires Total(regs)
    ensures AfterDevPowerCtl(AfterDevPowerCtl(regs, first), second) == AfterDevPowerCtl(regs, second)
  {
    var a := AfterDevPowerCtl(AfterDevPowerCtl(regs, first), second);
    var b := AfterDevPowerCtl(regs, second);
    BitsDetermineRegs(a, b);
  }

  /**
   is_dev_pwr_fault: PIO10 is made an input (only gpio10_out_en is cleared),
   and a fault is reported when its sensed level is low.
   */
  method IsDevPwrFault(chip: Chip) returns (fault: bool)
    requires chip.Valid()
    modifies chip
    ensures chip.Valid()
    ensures chip.regs == With(old(chip.regs), PwrFailLoc.DirBit(), false)
    ensures fault == !Get(chip.regs, PwrFailLoc.InBit())
  {
    chip.ModifyReg(Bit(DirReg(Bank8_10), Gpio(10)), false);
    fault := !(Gpio(10) in chip.regs[InputReg(Bank8_10)]);
  }

  datatype PcbRevision = RevAorB | RevC

  /** pcb_revision: RevC exactly when gpio9_in of Gpio8_10Input reads 1. */
  function PcbRevisionOf(regs: Regs): (rev: PcbRevision)
    requires Total(regs)
    ensures rev == RevC <==> Gpio(9) in regs[InputReg(Bank8_10)]
    ensures rev == RevAorB <==> Gpio(9) !in regs[InputReg(Bank8_10)]
  {
    if Get(regs, RevSenseLoc.InBit()) then RevC else RevAorB
  }

  /**
   The revision read depends on the strap's input bit alone: writes to
   direction or output bits of pins other than PIO9 leave it unchanged, so
   a session that never drives PIO9 reads the same revision every time.
   (Driving PIO9 itself as an output could change what the strap senses,
   which this register model does not capture; such writes are excluded.)
   */
  lemma PcbRevisionStable(regs: Regs, regs': Regs, changed: set<Bit>)
    requires Total(regs) && Total(regs')
    requires SameExcept(regs, regs', changed)
    requires forall b | b in changed :: !b.reg.InputReg?
    requires RevSenseLoc.DirBit() !in changed && RevSenseLoc.OutBit() !in changed
    ensures PcbRevisionOf(regs') == PcbRevisionOf(regs)
  {
    assert RevSenseLoc.InBit() !in changed;
  }

  /** Power switching never changes the revision read. */
  lemma DevPowerCtlKeepsRevision(regs: Regs, pwrOn: bool)
    requires Total(regs)
    ensures PcbRevisionOf(AfterDevPowerCtl(regs, pwrOn)) == PcbRevisionOf(regs)
  {
    PcbRevisionStable(regs, AfterDevPowerCtl(regs, pwrOn), {PwrEnLoc.DirBit(), PwrEnLoc.OutBit()});
  }
}
