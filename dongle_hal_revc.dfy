/**
 The rev C dongle HAL: four GPIO header pins, two SLG lines and the USB data
 switch, each a fixed pin of the hub chip.

 Getters are functions of the register contents they read; setters are
 methods on the chip, each proved equal to a function of the old register
 contents, and that function's contract says which single bit it changes.
 */
module DongleHalRevC {
  import opened Usb4604

  datatype HeaderPin = P0 | P1 | P2 | P3
  datatype SlgPin = SlgIo0 | SlgIo1
  datatype PinMode = Output | Input
  datatype PinState = High | Low

  /** The header pin map: P0 is PIO19, P1 is PIO44, P2 is PIO8 and P3 is PIO20. */
  function HeaderLoc(pin: HeaderPin): Loc {
    match pin
    case P0 => Loc(Bank17_20, 19)
    case P1 => Loc(Bank41_45, 44)
    case P2 => Loc(Bank8_10, 8)
    case P3 => Loc(Bank17_20, 20)
  }

  /** SLG_IO0 is PIO43 and SLG_IO1 is PIO3. */
  function SlgLoc(pin: SlgPin): Loc {
    match pin
    case SlgIo0 => Loc(Bank41_45, 43)
    case SlgIo1 => Loc(Bank0_7, 3)
  }

  /** USB_SWITCH_EN is PIO1; driving it low connects the USB data lines to the device. */
  const UsbSwitchLoc: Loc := Loc(Bank0_7, 1)

  /** Every pin the HAL drives: the six lines a caller names, and the USB switch. */
  datatype Line = Header(h: HeaderPin) | Slg(s: SlgPin) | UsbSwitch

  function LineLoc(line: Line): Loc {
    match line
    case Header(h) => HeaderLoc(h)
    case Slg(s) => SlgLoc(s)
    case UsbSwitch => UsbSwitchLoc
  }

  /** Distinct lines are distinct pins of the chip, each in the bank its register names. */
  lemma PinMapInjective(a: Line, b: Line)
    ensures LineLoc(a).InBank()
    ensures LineLoc(a) == LineLoc(b) ==> a == b
  {
  }

  /** A set direction bit (out_en) means Output. */
  function ModeOf(outEn: bool): (m: PinMode)
    ensures (m == Output) == outEn
  {
    if outEn then Output else Input
  }

  // ---------------------------------------------------------------- header pins

  /** gpio_header_get_mode: the pin's direction bit. */
  function GpioHeaderGetMode(regs: Regs, pin: HeaderPin): (mode: PinMode)
    requires Total(regs)
    ensures pin == P0 ==> (mode == Output <==> Gpio(19) in regs[DirReg(Bank17_20)])
    ensures pin == P1 ==> (mode == Output <==> Gpio(44) in regs[DirReg(Bank41_45)])
    ensures pin == P2 ==> (mode == Output <==> Gpio(8) in regs[DirReg(Bank8_10)])
    ensures pin == P3 ==> (mode == Output <==> Gpio(20) in regs[DirReg(Bank17_20)])
  {
    ModeOf(Get(regs, HeaderLoc(pin).DirBit()))
  }

  /**
   The registers after gpio_header_set_mode(pin, mode): the pin reads back
   `mode`, and only its direction bit has changed.
   */
  function AfterGpioHeaderSetMode(regs: Regs, pin: HeaderPin, mode: PinMode): (regs': Regs)
    requires Total(regs)
    ensures Total(regs')
    ensures GpioHeaderGetMode(regs', pin) == mode
    ensures SameExcept(regs, regs', {HeaderLoc(pin).DirBit()})
  {
    With(regs, HeaderLoc(pin).DirBit(), mode == Output)
  }

  method GpioHeaderSetMode(chip: Chip, pin: HeaderPin, mode: PinMode)
    requires chip.Valid()
    modifies chip
    ensures chip.Valid()
    ensures chip.regs == AfterGpioHeaderSetMode(old(chip.regs), pin, mode)
  {
    var outEn := mode == Output;
    match pin
    case P0 => chip.ModifyReg(Bit(DirReg(Bank17_20), Gpio(19)), outEn);
    case P1 => chip.ModifyReg(Bit(DirReg(Bank41_45), Gpio(44)), outEn);
    case P2 => chip.ModifyReg(Bit(DirReg(Bank8_10), Gpio(8)), outEn);
    case P3 => chip.ModifyReg(Bit(DirReg(Bank17_20), Gpio(20)), outEn);
  }

  /**
   Setting one header pin's mode leaves the mode of every other line alone, even
   where the two share a direction register (P0 and P3 both live in Gpio17_20Dir).
   */
  lemma GpioHeaderSetModeKeepsOthers(regs: Regs, pin: HeaderPin, mode: PinMode, other: Line)
    requires Total(regs)
    requires other != Header(pin)
    ensures Get(AfterGpioHeaderSetMode(regs, pin, mode), LineLoc(other).DirBit())
         == Get(regs, LineLoc(other).DirBit())
  {
    PinMapInjective(other, Header(pin));
  }

  /**
   From a direction register that reads all zeros, making P0 an output leaves
   exactly the gpio19_out_en bit set in that register.
   */
  lemma SetModeP0FromZero(regs: Regs)
    requires Total(regs)
    requires regs[DirReg(Bank17_20)] == {}
    ensures AfterGpioHeaderSetMode(regs, P0, Output)[DirReg(Bank17_20)] == {Gpio(19)}
  {
  }

  /**
   The registers after gpio_header_set(pin, state). A pin that is not an output
   is refused and nothing is written; otherwise only the pin's output bit
   changes, to 1 for High.
   */
  function AfterGpioHeaderSet(regs: Regs, pin: HeaderPin, state: PinState): (regs': Regs)
    requires Total(regs)
    ensures Total(regs')
    ensures GpioHeaderGetMode(regs, pin) != Output ==> regs' == regs
    ensures GpioHeaderGetMode(regs, pin) == Output ==>
              && Get(regs', HeaderLoc(pin).OutBit()) == (state == High)
              && SameExcept(regs, regs', {HeaderLoc(pin).OutBit()})
  {
    if GpioHeaderGetMode(regs, pin) != Output then regs
    else With(regs, HeaderLoc(pin).OutBit(), state == High)
  }

  method GpioHeaderSet(chip: Chip, pin: HeaderPin, state: PinState)
    requires chip.Valid()
    modifies chip
    ensures chip.Valid()
    ensures chip.regs == AfterGpioHeaderSet(old(chip.regs), pin, state)
  {
    if GpioHeaderGetMode(chip.regs, pin) != Output {
      return;
    }
    var isHigh := state == High;
    match pin
    case P0 => chip.ModifyReg(Bit(OutputReg(Bank17_20), Gpio(19)), isHigh);
    case P1 => chip.ModifyReg(Bit(OutputReg(Bank41_45), Gpio(44)), isHigh);
    case P2 => chip.ModifyReg(Bit(OutputReg(Bank8_10), Gpio(8)), isHigh);
    case P3 => chip.ModifyReg(Bit(OutputReg(Bank17_20), Gpio(20)), isHigh);
  }

  /**
   The mode guard as a caller sees it: after making a pin an output, driving it
   sets its output bit; after making it an input, driving it writes nothing.
   */
  lemma GpioHeaderSetAfterSetMode(regs: Regs, pin: HeaderPin, mode: PinMode, state: PinState)
    requires Total(regs)
    ensures var configured := AfterGpioHeaderSetMode(regs, pin, mode);
            var driven := AfterGpioHeaderSet(configured, pin, state);
            && (mode == Input ==> driven == configured)
            && (mode == Output ==> Get(driven, HeaderLoc(pin).OutBit()) == (state == High))
  {
  }

  /** Driving a header pin never changes the mode of any line. */
  lemma GpioHeaderSetKeepsModes(regs: Regs, pin: HeaderPin, state: PinState, line: Line)
    requires Total(regs)
    ensures Get(AfterGpioHeaderSet(regs, pin, state), LineLoc(line).DirBit())
         == Get(regs, LineLoc(line).DirBit())
  {
  }

  // ---------------------------------------------------------------- SLG lines

  /** slg_io_get_mode: the line's direction bit. */
  function SlgIoGetMode(regs: Regs, pin: SlgPin): (mode: PinMode)
    requires Total(regs)
    ensures pin == SlgIo0 ==> (mode == Output <==> Gpio(43) in regs[DirReg(Bank41_45)])
    ensures pin == SlgIo1 ==> (mode == Output <==> Gpio(3) in regs[DirReg(Bank0_7)])
  {
    ModeOf(Get(regs, SlgLoc(pin).DirBit()))
  }

  /** The registers after slg_io_set_mode(pin, mode): the line reads back `mode`, and only its direction bit changed. */
  function AfterSlgIoSetMode(regs: Regs, pin: SlgPin, mode: PinMode): (regs': Regs)
    requires Total(regs)
    ensures Total(regs')
    ensures SlgIoGetMode(regs', pin) == mode
    ensures SameExcept(regs, regs', {SlgLoc(pin).DirBit()})
  {
    With(regs, SlgLoc(pin).DirBit(), mode == Output)
  }

  method SlgIoSetMode(chip: Chip, pin: SlgPin, mode: PinMode)
    requires chip.Valid()
    modifies chip
    ensures chip.Valid()
    ensures chip.regs == AfterSlgIoSetMode(old(chip.regs), pin, mode)
  {
    var outEn := mode == Output;
    match pin
    case SlgIo0 => chip.ModifyReg(Bit(DirReg(Bank41_45), Gpio(43)), outEn);
    case SlgIo1 => chip.ModifyReg(Bit(DirReg(Bank0_7), Gpio(3)), outEn);
  }

  /** Setting one SLG line's mode leaves the mode of every other line alone. */
  lemma SlgIoSetModeKeepsOthers(regs: Regs, pin: SlgPin, mode: PinMode, other: Line)
    requires Total(regs)
    requires other != Slg(pin)
    ensures Get(AfterSlgIoSetMode(regs, pin, mode), LineLoc(other).DirBit())
         == Get(regs, LineLoc(other).DirBit())
  {
    PinMapInjective(other, Slg(pin));
  }

  /** The registers after slg_io_set(pin, state): refused unless the line is an output; otherwise only its output bit changes. */
  function AfterSlgIoSet(regs: Regs, pin: SlgPin, state: PinState): (regs': Regs)
    requires Total(regs)
    ensures Total(regs')
    ensures SlgIoGetMode(regs, pin) != Output ==> regs' == regs
    ensures SlgIoGetMode(regs, pin) == Output ==>
              && Get(regs', SlgLoc(pin).OutBit()) == (state == High)
              && SameExcept(regs, regs', {SlgLoc(pin).OutBit()})
  {
    if SlgIoGetMode(regs, pin) != Output then regs
    else With(regs, SlgLoc(pin).OutBit(), state == High)
  }

  method SlgIoSet(chip: Chip, pin: SlgPin, state: PinState)
    requires chip.Valid()
    modifies chip
    ensures chip.Valid()
    ensures chip.regs == AfterSlgIoSet(old(chip.regs), pin, state)
  {
    if SlgIoGetMode(chip.regs, pin) != Output {
      return;
    }
    var isHigh := state == High;
    match pin
    case SlgIo0 => chip.ModifyReg(Bit(OutputReg(Bank41_45), Gpio(43)), isHigh);
    case SlgIo1 => chip.ModifyReg(Bit(OutputReg(Bank0_7), Gpio(3)), isHigh);
  }

  // ---------------------------------------------------------------- USB switch

  /**
   The registers after usb_switch_set(isConnected): gpio1_out reads the
   negation of `isConnected` (0 connects), whatever the pin's mode, and no
   other bit changes.
   */
  function AfterUsbSwitchSet(regs: Regs, isConnected: bool): (regs': Regs)
    requires Total(regs)
    ensures Total(regs')
    ensures Get(regs', UsbSwitchLoc.OutBit()) == !isConnected
    ensures SameExcept(regs, regs', {UsbSwitchLoc.OutBit()})
  {
    With(regs, UsbSwitchLoc.OutBit(), !isConnected)
  }

  method UsbSwitchSet(chip: Chip, isConnected: bool)
    requires chip.Valid()
    modifies chip
    ensures chip.Valid()
    ensures chip.regs == AfterUsbSwitchSet(old(chip.regs), isConnected)
  {
    chip.ModifyReg(Bit(OutputReg(Bank0_7), Gpio(1)), !isConnected);
  }

  /** usb_switch_is_connected: the sensed level of PIO1, inverted. */
  function UsbSwitchIsConnected(regs: Regs): (connected: bool)
    requires Total(regs)
    ensures connected <==> Gpio(1) !in regs[InputReg(Bank0_7)]
  {
    !Get(regs, UsbSwitchLoc.InBit())
  }

  /**
   usb_switch_is_connected depends on the sensed level of PIO1 alone: any two
   register contents that agree on gpio1_in give the same answer.
   */
  lemma UsbSwitchIsConnectedSensesPin(a: Regs, b: Regs, changed: set<Bit>)
    requires Total(a) && Total(b)
    requires SameExcept(a, b, changed) && UsbSwitchLoc.InBit() !in changed
    ensures UsbSwitchIsConnected(a) == UsbSwitchIsConnected(b)
  {
  }

  // ---------------------------------------------------------------- setup_revc

  /** The registers after the configuration preamble of setup_revc. */
  function AfterSetupRevc(regs: Regs): (regs': Regs)
    requires Total(regs)
    ensures Total(regs')
    ensures forall line :: Get(regs', LineLoc(line).DirBit())
    ensures SameExcept(regs, regs', SetupBits())
  {
    var r0 := With(regs, UsbSwitchLoc.DirBit(), true);
    var r1 := AfterSlgIoSetMode(r0, SlgIo0, Output);
    var r2 := AfterSlgIoSetMode(r1, SlgIo1, Output);
    var r3 := AfterGpioHeaderSetMode(r2, P0, Output);
    var r4 := AfterGpioHeaderSetMode(r3, P1, Output);
    var r5 := AfterGpioHeaderSetMode(r4, P2, Output);
    var r6 := AfterGpioHeaderSetMode(r5, P3, Output);
    r6
  }

  /** The direction bits of all seven lines. */
  function SetupBits(): set<Bit> {
    {UsbSwitchLoc.DirBit(), SlgLoc(SlgIo0).DirBit(), SlgLoc(SlgIo1).DirBit(),
     HeaderLoc(P0).DirBit(), HeaderLoc(P1).DirBit(), HeaderLoc(P2).DirBit(), HeaderLoc(P3).DirBit()}
  }

  /**
   setup_revc's configuration preamble (before its toggle loop): the USB switch,
   both SLG lines and all four header pins become outputs, and no other bit changes.
   */
  method SetupRevc(chip: Chip)
    requires chip.Valid()
    modifies chip
    ensures chip.Valid()
    ensures chip.regs == AfterSetupRevc(old(chip.regs))
  {
    chip.ModifyReg(Bit(DirReg(Bank0_7), Gpio(1)), true);
    SlgIoSetMode(chip, SlgIo0, Output);
    SlgIoSetMode(chip, SlgIo1, Output);
    GpioHeaderSetMode(chip, P0, Output);
    GpioHeaderSetMode(chip, P1, Output);
    GpioHeaderSetMode(chip, P2, Output);
    GpioHeaderSetMode(chip, P3, Output);
  }
}
