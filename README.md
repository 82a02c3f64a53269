# Helios PC/104 GPIO controller: register-access layer

This project models the register-access layer of the Helios PC/104 GPIO
driver for QNX (`portctrl.c`, `portctrl.h`). The driver owns five 8-bit
registers: the base-mode register, the I/O control (direction) register and
the data registers of ports A, B and C. `initIOCtrl` asks the OS for
privileged I/O, writes the mode byte `0x44` to the base register and clears
the control register, so every sub-port becomes an output. `setPort` sets or
clears one direction bit. `pinOn`, `pinOff` and `writePins` read, modify and
write back a data register. `readPin` and `readPort` observe a data
register.

The model has three modules:

- `PortDefs` (`portdefs.dfy`) holds the header's register addresses, the
  `OUT`/`IN` modes, the `PIN0`..`PIN7` masks, `FAILEDPERMISSION` and the
  `Port` enumeration, with lemmas about the masks and the register map.
- `PortCtrl` (`portctrl.dfy`) holds the register file as a value
  (`RegisterFile`) with one function per operation, and the class
  `PortController`. The class keeps the five registers as `bv8` fields. Its
  methods perform the driver's read-modify-write steps and are proved
  against those functions. A ghost flag `initialized` records the rule that
  only `initIOCtrl` may run before a successful `initIOCtrl`. The driver
  itself does not check this.
- `CallSequences` (`call_sequences.dfy`) models any sequence of
  `setPort`/`pinOn`/`pinOff`/`writePins` calls. Its lemmas prove what every
  such sequence keeps.

The model follows the code as written:

- `setPort(PORTCH, m)` has no `break`, so it runs on into the `PORTCL` arm.
  It therefore changes control bit 0, exactly as `PORTCL` does, and never
  bit 3. As a result, the high half of port C can never be set to input.
- The data operations on `PORTCH`/`PORTCL` fall to `default` and do
  nothing. `readPort` of those variants returns 0, and `readPin` of them
  returns 1 exactly when the mask is 0.
- `setPort(PORTC, m)` reads the local `pin` without ever assigning it,
  which is undefined in C. The model excludes it with `requires prt !=
  PortC`. It does not re-run the low-half arm.
- `readPin` returns the `int` 1 or 0, not a boolean. It tests that *all*
  bits of the mask are set.
- `mode` is an `int` tested for non-zero, so any non-zero mode sets the bit.
- No operation checks for initialisation. A call made before initialisation
  is excluded only by the ghost precondition.
- `tmp & ~pin` is computed in `int` and truncated to a byte by `out8`. The
  model writes it as the byte operation `tmp & !pin` on `bv8`.

## Model

| member | source | states |
|---|---|---|
| `PortDefs.PinMask` | portctrl.h:32-39 | pin mask i is exactly `1 << i` for i = 0..7 |
| `PortDefs.PinMasksDisjoint` | portctrl.h:32-39 | no two pin masks share a bit |
| `PortDefs.PinMasksCoverByte` | portctrl.h:32-39 | the OR of `PIN0`..`PIN7` is `0xFF` |
| `PortDefs.RegisterMap` | portctrl.h:21-25 | the data registers A, B, C are consecutive at `0x288`-`0x28A`, the control register follows at `0x28B`, the base register lies below them, and all five addresses are distinct |
| `PortDefs.PortVariants` | portctrl.h:50-56 | the port enumeration has exactly five distinct variants, and every port is one of them |
| `PortDefs.FailedPermissionIsNotSuccess` | portctrl.h:42 | `FAILEDPERMISSION` (-1) differs from the success code 0 |
| `PortCtrl.InitIOCtrlValue` | portctrl.c:34-51 | the result is 0 iff permission is granted; when refused, the result is `FAILEDPERMISSION` and no register changes; when granted, base holds `0x44`, control holds `0x00`, and the data registers are kept |
| `PortCtrl.SetPortValue` | portctrl.c:56-77 | the sub-port's control bit is set iff the mode is non-zero; every other control bit and every other register is unchanged |
| `PortCtrl.CtrlBitPositions` | portctrl.c:58-71 | A rewrites bit 4 and B rewrites bit 1; `PORTCL` rewrites bit 0, and so does `PORTCH`, through the fallthrough |
| `PortCtrl.SetPortHighHalfActsOnLowHalf` | portctrl.c:65-69 | `setPort(PORTCH, m)` equals `setPort(PORTCL, m)`: bit 0 follows the mode and bit 3 is untouched |
| `PortCtrl.SetPortModes` | portctrl.c:72-76 | `IN` sets the sub-port's control bit and `OUT` clears it |
| `PortCtrl.InitLeavesEveryPortOutput` | portctrl.c:46-48 | after a successful init, every sub-port's control bit and bit 3 are clear (all output) |
| `PortCtrl.PinOnValue` | portctrl.c:82-102 | on A/B/C, every pin of the mask is high afterwards; the other pins of the port keep their levels; no other register changes; on a nibble variant nothing changes |
| `PortCtrl.PinOffValue` | portctrl.c:107-127 | every pin of the mask is low afterwards; the other pins keep their levels; no other register changes; on a nibble variant nothing changes |
| `PortCtrl.WritePinsValue` | portctrl.c:132-145 | on A/B/C the data register holds the written byte; nothing else changes; on a nibble variant nothing changes |
| `PortCtrl.ReadPinValue` | portctrl.c:150-172 | the result is 0 or 1, and it is 1 iff `(port byte & mask) == mask` |
| `PortCtrl.PinOnIdempotent` | portctrl.c:82-102 | applying `pinOn` twice equals applying it once |
| `PortCtrl.PinOffIdempotent` | portctrl.c:107-127 | applying `pinOff` twice equals applying it once |
| `PortCtrl.DataOpsIgnoreNibbles` | portctrl.c:82-145 | `pinOn`, `pinOff` and `writePins` with `PORTCH`/`PORTCL` change no register |
| `PortCtrl.WritePinsThenReadPort` | portctrl.c:132-192 | `writePins(p, b)` then `readPort(p)` returns `b` for A/B/C, and 0 for the nibble variants |
| `PortCtrl.ReadPinEmptyMask` | portctrl.c:150-172 | `readPin` with mask 0 returns 1 on every port |
| `PortCtrl.ReadPinOnNibble` | portctrl.c:150-172 | `readPin` on `PORTCH`/`PORTCL` returns 1 iff the mask is 0 |
| `PortCtrl.ContainsEveryPin` | portctrl.c:155-167 | a byte contains a mask iff it contains every single pin the mask names |
| `PortCtrl.ReadPinMeansEveryPinHigh` | portctrl.c:150-172 | `readPin` returns 1 iff every pin named by the mask is high on the port: an all-pins test |
| `PortCtrl.ReadPinIsNotAnyPin` | portctrl.c:167-171 | with only pin 0 high, `readPin` of port A with the mask `PIN0` OR `PIN1` returns 0 although the mask meets the port byte |
| `PortCtrl.PortController.constructor` | portctrl.c:22-27 | the five register fields hold the power-on contents; the controller is not yet initialised |
| `PortCtrl.PortController.InitIOCtrl` | portctrl.c:34-51 | the return code and new registers are those of `InitIOCtrlValue`; the controller is initialised iff it was before or permission is granted |
| `PortCtrl.PortController.SetPort` | portctrl.c:56-77 | the registers afterwards are `SetPortValue` of the registers before |
| `PortCtrl.PortController.PinOn` | portctrl.c:82-102 | the registers afterwards are `PinOnValue` of the registers before |
| `PortCtrl.PortController.PinOff` | portctrl.c:107-127 | the registers afterwards are `PinOffValue` of the registers before |
| `PortCtrl.PortController.WritePins` | portctrl.c:132-145 | the registers afterwards are `WritePinsValue` of the registers before |
| `PortCtrl.PortController.ReadPin` | portctrl.c:150-172 | returns `ReadPinValue` of the current registers, without changing them |
| `PortCtrl.PortController.ReadPort` | portctrl.c:177-192 | returns the port's data register, or 0 for a nibble variant, without changing anything |
| `PortCtrl.PortCPin0Session` | portctrl.c:34-172 | init, then `setPort(PORTCL, OUT)`, then `pinOn(PORTC, PIN0)`: `readPin` gives 1; after `pinOff(PORTC, PIN0)`, `readPin` gives 0 |
| `CallSequences.RunKeepsBase` | portctrl.c:46 | no sequence of calls after init changes the base register |
| `CallSequences.StepConfinesControl` | portctrl.c:56-77 | one call changes no control bit other than bits 4, 1 and 0 |
| `CallSequences.RunConfinesControl` | portctrl.c:56-77 | no sequence of calls changes a control bit other than bits 4, 1 and 0 |
| `CallSequences.HighHalfOfPortCStaysOutput` | portctrl.c:46-76 | after a successful init, whatever calls follow, base still holds `0x44` and control bit 3 stays clear: the high half of port C can never be switched to input |
| `CallSequences.RunKeepsUnwrittenPort` | portctrl.c:82-145 | a data port that no call in the sequence writes keeps its byte |

## Left out

- The QNX privilege request `ThreadCtl(_NTO_TCTL_IO, NULL)` is a foreign OS call. Its outcome is the `permitted` argument of `InitIOCtrl`.
- `mmap_device_io` and the mapping of addresses to handles are left out. `in8`/`out8` become reads and writes of the register fields. A simulated data register reads back what was last written. The model does not capture pin levels that the hardware drives on input ports.
- The `printf` diagnostic on permission failure is output only.
- `setPort(PORTC, …)` reads an unassigned local, which is undefined behaviour in C. It is excluded by a precondition.
- Concurrency is left out: the source includes `pthread.h` but does not use it. The model is single-threaded, so lost updates between racing read-modify-write calls are not captured.
- The register contents before `initIOCtrl` are whatever the board powered up with. They are a constructor argument.
- `readPin` and `readPort` do not appear in `CallSequences`, because they change no register.
