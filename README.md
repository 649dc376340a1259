# mchp_gpio_ctl: register-level GPIO logic of the dongle

This project models the part of mchp_gpio_ctl that turns semantic dongle operations into
register accesses on the USB4604 hub chip, and proves what each operation does to the chip's
registers.

- `Usb4604` (usb4604.dfy) is the chip's GPIO register bank. Each GPIO bank (0-7, 8-10, 17-20
  and 41-45) has a direction, an output and an input register. A register value is the set of
  its bits that read 1. A bit is named by the pin it belongs to (`Gpio(n)`), or is some other bit
  of the register (`Reserved(k)`). The register layout itself is not part of this model. No
  addresses or bit positions are assumed. The only assumptions are that differently named
  registers are different registers, and that differently named fields of one register are
  different bits. `Chip` is the hub behind an open interface. It holds the registers in a map
  from register to value. Its one mutator, `ModifyReg`, is one `modify_reg` read-modify-write of
  one field.
- `DongleHalRevC` (dongle_hal_revc.dfy) is the rev C HAL. It covers four header pins, two SLG
  lines and the USB data switch. Each line is a fixed pin of the chip (`HeaderLoc`, `SlgLoc`,
  `UsbSwitchLoc`). The getters are functions of the register contents. Each setter is a method
  on the chip, proved to leave the registers equal to an `After…` function of the old contents.
  The contract of that function says which single bit changes and what the matching getter
  then reads. Setting a pin that is not an output writes nothing.
- `DongleHalRevB` (dongle_hal_revb.dfy) is the rev A/B HAL. It covers the inverted power switch
  on PIO0, the inverted fault line on PIO10, and the board revision read from the PIO9 strap.
- `GpioCtl` (gpio_ctl.dfy) is the standalone tool in main.rs, which works on 32-bit registers.
  `read_reg` and `write_reg` carry a register as four big-endian bytes in vendor control
  requests 4 and 3, with the address in the request's value field. The `Hub` class is the
  register file those requests reach. `Execute` runs the `PwrOn`, `PwrOff` and `PwrState`
  commands. Bit operations on `u32` are written arithmetically: setting bit 0 by
  or-assignment is `SetBit0` and clearing it by and-assignment is `ClearBit0`. "Bits 1 to 31
  kept" is stated as `r / 2 == reg / 2`.

What the code does, and the model with it:

- The code has no revision check. `usb_switch_set` and the SLG and header functions write on
  any board, so the model has no "unsupported on this revision" outcome.
- A refused drive (pin not an output) prints a message and returns nothing. The model
  represents it as "no register changes", not as a typed mode-mismatch result.
- main.rs drives GPIO0 non-inverted (bit 0 set means power on). Its `PwrOn`/`PwrOff` overwrite
  the whole direction register with 1, which makes every other pin of that register an input.
  The rev B HAL drives PIO0 inverted, with a single-bit read-modify-write. The two target
  different chip variants and are modelled separately, as written.

## Model

| member | source | states |
|---|---|---|
| Usb4604.SetField | src/dongle_hal_revc.rs:95 | a generated field setter makes that field read the given level and keeps every other field of the register |
| Usb4604.With | src/dongle_hal_revc.rs:93-106 | one read-modify-write leaves the targeted bit at the written level and every other bit of every register unchanged |
| Usb4604.BitsDetermineRegs | src/dongle_hal_revb.rs:13-18 | two register contents that agree on every bit are equal (used to prove whole-state equalities such as idempotence) |
| Usb4604.Chip.ModifyReg | src/dongle_hal_revc.rs:95 | modify_reg reads the register, changes one field and writes it back: the new state is `With` of the old |
| DongleHalRevC.PinMapInjective | src/dongle_hal_revc.rs:1-8 | the four header pins, two SLG lines and the USB switch sit on pairwise distinct pins, each inside the range of the bank whose registers hold it |
| DongleHalRevC.ModeOf | src/dongle_hal_revc.rs:116-120 | a set out_en bit reads as Output and a clear one as Input |
| DongleHalRevC.GpioHeaderGetMode | src/dongle_hal_revc.rs:109-121 | gpio_header_get_mode is Output exactly when the pin's out_en bit is set: gpio19 of Gpio17_20Dir for P0, gpio44 of Gpio41_45Dir for P1, gpio8 of Gpio8_10Dir for P2, gpio20 of Gpio17_20Dir for P3 |
| DongleHalRevC.AfterGpioHeaderSetMode | src/dongle_hal_revc.rs:91-121 | after gpio_header_set_mode(p, m), gpio_header_get_mode(p) returns m, and only p's direction bit has changed |
| DongleHalRevC.GpioHeaderSetMode | src/dongle_hal_revc.rs:91-107 | the per-pin match (P0→gpio19 in Gpio17_20Dir, P1→gpio44 in Gpio41_45Dir, P2→gpio8 in Gpio8_10Dir, P3→gpio20 in Gpio17_20Dir) has exactly the effect of AfterGpioHeaderSetMode |
| DongleHalRevC.GpioHeaderSetModeKeepsOthers | src/dongle_hal_revc.rs:93-106 | setting one header pin's mode keeps the mode of every other line, including P3 when P0 is set (same register) |
| DongleHalRevC.SetModeP0FromZero | src/dongle_hal_revc.rs:94-96 | from an all-zero Gpio17_20Dir, making P0 an output leaves exactly the gpio19_out_en bit set there |
| DongleHalRevC.AfterGpioHeaderSet | src/dongle_hal_revc.rs:123-143 | gpio_header_set on a pin that is not an output changes nothing; on an output pin it sets only the mapped output bit, to 1 for High |
| DongleHalRevC.GpioHeaderSet | src/dongle_hal_revc.rs:123-143 | the guarded method (mode check, then per-pin write of the output register) has exactly the effect of AfterGpioHeaderSet |
| DongleHalRevC.GpioHeaderSetAfterSetMode | src/dongle_hal_revc.rs:91-143 | after set_mode(p, Input), set(p, s) writes nothing; after set_mode(p, Output), set(p, s) makes the output bit read s |
| DongleHalRevC.GpioHeaderSetKeepsModes | src/dongle_hal_revc.rs:128-142 | driving a header pin never changes the mode of any line |
| DongleHalRevC.AfterSlgIoSetMode | src/dongle_hal_revc.rs:145-167 | after slg_io_set_mode(p, m), slg_io_get_mode(p) returns m, and only p's direction bit (gpio43 of 41-45, gpio3 of 0-7) has changed |
| DongleHalRevC.SlgIoSetMode | src/dongle_hal_revc.rs:145-155 | the per-line match has exactly the effect of AfterSlgIoSetMode |
| DongleHalRevC.SlgIoSetModeKeepsOthers | src/dongle_hal_revc.rs:147-154 | setting one SLG line's mode keeps the mode of every other line |
| DongleHalRevC.SlgIoGetMode | src/dongle_hal_revc.rs:157-167 | slg_io_get_mode is Output exactly when gpio43_out_en of Gpio41_45Dir (SlgIo0) or gpio3_out_en of Gpio0_7Dir (SlgIo1) is set |
| DongleHalRevC.AfterSlgIoSet | src/dongle_hal_revc.rs:169-183 | slg_io_set on a line that is not an output changes nothing; otherwise it sets only that line's output bit, to 1 for High |
| DongleHalRevC.SlgIoSet | src/dongle_hal_revc.rs:169-183 | the guarded method has exactly the effect of AfterSlgIoSet |
| DongleHalRevC.AfterUsbSwitchSet | src/dongle_hal_revc.rs:185-188 | usb_switch_set(c) makes gpio1_out of Gpio0_7Output read !c (0 connects), whatever the pin's mode, and changes no other bit |
| DongleHalRevC.UsbSwitchSet | src/dongle_hal_revc.rs:185-188 | the method has exactly the effect of AfterUsbSwitchSet |
| DongleHalRevC.UsbSwitchIsConnected | src/dongle_hal_revc.rs:190-192 | usb_switch_is_connected is true exactly when gpio1_in of Gpio0_7Input reads 0 |
| DongleHalRevC.UsbSwitchIsConnectedSensesPin | src/dongle_hal_revc.rs:190-192 | usb_switch_is_connected depends only on gpio1_in of Gpio0_7Input, and reports connected exactly when that bit reads 0 |
| DongleHalRevC.AfterSetupRevc | src/dongle_hal_revc.rs:63-69 | the configuration preamble leaves the USB switch, both SLG lines and all four header pins as outputs and changes no other bit |
| DongleHalRevC.SetupRevc | src/dongle_hal_revc.rs:63-69 | the seven mode writes of the preamble, in order, have exactly the effect of AfterSetupRevc |
| DongleHalRevB.AfterDevPowerCtl | src/dongle_hal_revb.rs:12-19 | after dev_power_ctl(on), gpio0_out_en of Gpio0_7Dir is set, gpio0_out of Gpio0_7Output reads !on, and no other bit has changed |
| DongleHalRevB.DevPowerCtl | src/dongle_hal_revb.rs:12-19 | the two read-modify-writes have exactly the effect of AfterDevPowerCtl |
| DongleHalRevB.IsDevPowerOn | src/dongle_hal_revb.rs:22-25 | is_dev_power_on is true exactly when gpio0_out of Gpio0_7Output reads 0, whatever PIO0's direction bit says |
| DongleHalRevB.DevPowerRoundTrip | src/dongle_hal_revb.rs:12-25 | dev_power_ctl(on) followed by is_dev_power_on() returns on |
| DongleHalRevB.DevPowerCtlIdempotent | src/dongle_hal_revb.rs:13-18 | calling dev_power_ctl twice with the same argument leaves the registers as calling it once |
| DongleHalRevB.DevPowerLastWins | src/dongle_hal_revb.rs:13-18 | of two power switchings the last one alone decides the register contents |
| DongleHalRevB.IsDevPwrFault | src/dongle_hal_revb.rs:28-34 | is_dev_pwr_fault clears only gpio10_out_en of Gpio8_10Dir and then returns the negation of gpio10_in of Gpio8_10Input |
| DongleHalRevB.PcbRevisionOf | src/dongle_hal_revb.rs:42-49 | pcb_revision is RevC exactly when gpio9_in of Gpio8_10Input reads 1, and RevAorB exactly when it reads 0 |
| DongleHalRevB.PcbRevisionStable | src/dongle_hal_revb.rs:42-49 | pcb_revision depends on gpio9_in alone: no write to a direction or output bit other than PIO9's changes what it returns |
| DongleHalRevB.DevPowerCtlKeepsRevision | src/dongle_hal_revb.rs:12-19 | switching power never changes the detected board revision |
| GpioCtl.BeValueOfBeBytes | src/main.rs:31 | decoding the n big-endian bytes of a number below 256^n gives the number back |
| GpioCtl.BeBytesOfBeValue | src/main.rs:35 | encoding the value of a byte sequence in as many bytes gives the same bytes back |
| GpioCtl.ToBeBytes | src/main.rs:35 | to_be_bytes yields four bytes whose weighted sum, most significant first, is the value |
| GpioCtl.FromBeBytes | src/main.rs:31 | from_be_bytes reads the first of four bytes as the most significant |
| GpioCtl.FromToBeBytes | src/main.rs:31-35 | from_be_bytes(to_be_bytes(v)) == v |
| GpioCtl.ToFromBeBytes | src/main.rs:31-35 | to_be_bytes(from_be_bytes(b)) == b for every four bytes b |
| GpioCtl.ReadRegRequest | src/main.rs:24-29 | read_reg's setup packet is a vendor request to the interface with request 4, value the register address and index 0 |
| GpioCtl.WriteRegRequest | src/main.rs:36-41 | write_reg's setup packet is a vendor request to the interface with request 3, value the register address and index 0 |
| GpioCtl.RequestsDecode | src/main.rs:24-41 | a setup packet is a register read of addr exactly when it is read_reg's request (vendor, interface, request 4, value addr, index 0), and a register write exactly when it is write_reg's (request 3) |
| GpioCtl.Hub.ControlIn | src/main.rs:24-30 | a register-read request is answered with the register's four big-endian bytes; any other request gets no data |
| GpioCtl.Hub.ControlOut | src/main.rs:36-42 | a register-write request with four bytes stores their value in the addressed register; anything else changes nothing |
| GpioCtl.ReadReg | src/main.rs:22-32 | read_reg returns the addressed register's value (its request is answered, and the byte round trip is exact) |
| GpioCtl.WriteReg | src/main.rs:34-43 | write_reg stores the value in the addressed register and changes no other register |
| GpioCtl.SetBit0 | src/main.rs:64 | the or-assignment of 1 sets bit 0 and keeps bits 1 to 31 |
| GpioCtl.ClearBit0 | src/main.rs:72 | the and-assignment of !1 clears bit 0 and keeps bits 1 to 31 |
| GpioCtl.AfterCommand | src/main.rs:59-79 | PwrOn and PwrOff leave register 0x0830 exactly 1 and set (PwrOn) or clear (PwrOff) bit 0 of 0x0834, keeping its other 31 bits and every other register; PwrState changes nothing |
| GpioCtl.AfterCommandIdempotent | src/main.rs:59-79 | running any of the three commands twice leaves the registers as running it once |
| GpioCtl.Execute | src/main.rs:59-79 | the command arms (write 0x0830, read 0x0834, update bit 0, write it back) have exactly the effect of AfterCommand |

## Left out

- The USB transport: the nusb `Interface`/`Device` handles, claiming the interface, the
  500 ms timeout, and transfer failures. The source unwraps the transfer results, so the
  model treats registers as always reachable. In `GpioCtl`, a request the hub would reject
  shows up as `None` or `false` from `Hub.ControlIn`/`Hub.ControlOut`. `ReadReg` and
  `WriteReg` prove that their own requests are never rejected.
- Device enumeration by vendor and product id, and command-line parsing: glue around the core.
- Printed output, including the refusal message of the mode guard and the register values
  that main.rs prints.
- The 10000-iteration toggle loop with sleeps in `setup_revc` (src/dongle_hal_revc.rs:71-88).
  It is a timing demonstration. `SetupRevc` models only the configuration preamble before it.
- The commented-out port-power experiments at the top of `setup_revc`.
- The `usb4604_ral` register definitions (addresses, widths, bit positions), which are not
  part of this model. Input registers hold whatever the pins sense. The model takes them as
  given state and never relates them to the output registers.
- Registers of the chip other than the GPIO direction, output and input registers of the four
  banks the HALs use.
- Read-modify-write races between concurrent users. The tool is single-threaded, and each
  `modify_reg` is modelled as one step.
- Each getter (`GpioHeaderGetMode`, `SlgIoGetMode`, `UsbSwitchIsConnected`, `IsDevPowerOn`,
  `PcbRevisionOf`) reads its register with a USB transfer. The model treats that read as a pure
  function of the register contents, so it does not capture a transfer failing or the pins
  changing between two reads.
- Input registers are never related to the direction and output registers. So the model does
  not capture that clearing gpio10_out_en lets PIO10 sense the external PWR_FAIL_N line
  instead of its own drive, or that driving PIO9 as an output could change the strap read.
- PcbRevisionStable: excludes writes to PIO9's direction and output bits, because the model
  cannot say what the strap senses once PIO9 is driven.
- The source marks two of the setup writes in `setup_revc` as not taking effect on the board
  (SlgIo0 and P1, src/dongle_hal_revc.rs:64 and 67). `SetupRevc` gives the register effect of
  these writes, not whether the board honours them.
