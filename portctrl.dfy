/**
 * The register-access layer of the Helios PC/104 GPIO controller.
 *
 * The five hardware registers are simulated by five bytes. The value level
 * (RegisterFile and the functions over it) says what each operation does to
 * the register file; the class PortController holds the registers as fields
 * and performs the same read-modify-write steps as the driver, each method
 * proved against its function.
 */
module PortCtrl {
  import opened PortDefs

  /** Value initIOCtrl returns when it succeeds. */
  const InitOk: int := 0

  /** Mode byte initIOCtrl writes to the base register. */
  const BaseMode: bv8 := 0x44

  /** Control byte initIOCtrl writes: every sub-port set to output. */
  const AllOutput: bv8 := 0x00

  // The three byte operations the driver applies to register values

  /** The byte with the bits of m set (C `x | m`). */
  function WithBits(x: bv8, m: bv8): bv8 {
    x | m
  }

  /** The byte with the bits of m cleared (C `x & ~m`, truncated to a byte). */
  function WithoutBits(x: bv8, m: bv8): bv8 {
    x & !m
  }

  /** The bits of x that m selects (C `x & m`). */
  function Masked(x: bv8, m: bv8): bv8 {
    x & m
  }

  /** Contents of the five registers. */
  datatype RegisterFile = RegisterFile(base: bv8, ioCtrl: bv8, portA: bv8, portB: bv8, portC: bv8)

  /** The ports whose data register the data operations reach. */
  predicate IsDataPort(prt: Port) {
    prt.PortA? || prt.PortB? || prt.PortC?
  }

  /**
   * The byte readPort observes: the data register of A, B or C. For the
   * nibble variants no arm of the switch runs and the local stays 0.
   */
  function ReadPortValue(r: RegisterFile, prt: Port): bv8 {
    match prt
    case PortA => r.portA
    case PortB => r.portB
    case PortC => r.portC
    case _ => 0
  }

  /**
   * r' differs from r at most in the data register of prt: base and control
   * registers are kept, every other data port reads as before, and for a
   * nibble variant nothing changes at all.
   */
  predicate OnlyDataOf(r: RegisterFile, r': RegisterFile, prt: Port) {
    && r'.base == r.base
    && r'.ioCtrl == r.ioCtrl
    && (forall q :: IsDataPort(q) && q != prt ==> ReadPortValue(r', q) == ReadPortValue(r, q))
    && (!IsDataPort(prt) ==> r' == r)
  }

  /** The register file after out8(<data register of prt>, v); no write for a nibble variant. */
  function WithData(r: RegisterFile, prt: Port, v: bv8): (r': RegisterFile)
    ensures IsDataPort(prt) ==> ReadPortValue(r', prt) == v
    ensures OnlyDataOf(r, r', prt)
  {
    match prt
    case PortA => r.(portA := v)
    case PortB => r.(portB := v)
    case PortC => r.(portC := v)
    case _ => r
  }

  /**
   * initIOCtrl: when the privilege request is refused, FailedPermission and
   * no register written; otherwise 0, the base register set to the mode
   * byte and the control register cleared.
   */
  datatype InitResult = InitResult(rc: int, regs: RegisterFile)

  function InitIOCtrlValue(r: RegisterFile, permitted: bool): (res: InitResult)
    ensures res.rc == InitOk <==> permitted
    ensures !permitted ==> res.rc == FailedPermission && res.regs == r
    ensures permitted ==> res.regs.base == BaseMode && res.regs.ioCtrl == AllOutput
    ensures forall q :: ReadPortValue(res.regs, q) == ReadPortValue(r, q)
  {
    if !permitted then InitResult(FailedPermission, r)
    else InitResult(InitOk, r.(base := BaseMode).(ioCtrl := AllOutput))
  }

  /**
   * The control bit setPort rewrites for prt. PortCH has no break after its
   * assignment, so it runs on into the PortCL arm and ends on bit 0, the
   * same bit as PortCL; bit 3 is never chosen. PortC reaches no assignment.
   */
  function CtrlBit(prt: Port): (bit: bv8)
    requires prt != PortC
  {
    match prt
    case PortA => 1 << 4
    case PortB => 1 << 1
    case PortCH => 1
    case PortCL => 1
  }

  /**
   * setPort: the control bit of prt is set exactly when mode is non-zero,
   * every other control bit is kept, and no other register is touched.
   */
  function SetPortValue(r: RegisterFile, prt: Port, mode: int): (r': RegisterFile)
    requires prt != PortC
    ensures (r'.ioCtrl & CtrlBit(prt) != 0) <==> mode != 0
    ensures r'.ioCtrl & !CtrlBit(prt) == r.ioCtrl & !CtrlBit(prt)
    ensures r' == r.(ioCtrl := r'.ioCtrl)
  {
    var tmp := r.ioCtrl;
    if mode != 0 then r.(ioCtrl := WithBits(tmp, CtrlBit(prt)))
    else r.(ioCtrl := WithoutBits(tmp, CtrlBit(prt)))
  }

  /**
   * pinOn: every pin of the mask reads high afterwards, every other pin of
   * the port keeps its level, and only that data register changes.
   */
  function PinOnValue(r: RegisterFile, prt: Port, pn: bv8): (r': RegisterFile)
    ensures IsDataPort(prt) ==> ReadPortValue(r', prt) & pn == pn
    ensures ReadPortValue(r', prt) & !pn == ReadPortValue(r, prt) & !pn
    ensures OnlyDataOf(r, r', prt)
  {
    WithData(r, prt, WithBits(ReadPortValue(r, prt), pn))
  }

  /**
   * pinOff: every pin of the mask reads low afterwards, every other pin of
   * the port keeps its level, and only that data register changes.
   */
  function PinOffValue(r: RegisterFile, prt: Port, pn: bv8): (r': RegisterFile)
    ensures ReadPortValue(r', prt) & pn == 0
    ensures ReadPortValue(r', prt) & !pn == ReadPortValue(r, prt) & !pn
    ensures OnlyDataOf(r, r', prt)
  {
    WithData(r, prt, WithoutBits(ReadPortValue(r, prt), pn))
  }

  /** writePins: the data register of an A, B or C port holds the new byte. */
  function WritePinsValue(r: RegisterFile, prt: Port, pins: bv8): (r': RegisterFile)
    ensures IsDataPort(prt) ==> ReadPortValue(r', prt) == pins
    ensures OnlyDataOf(r, r', prt)
  {
    WithData(r, prt, pins)
  }

  /**
   * readPin: 1 when every pin of the mask is high in the port's byte, 0
   * otherwise. For a nibble variant the byte is 0, so only the empty mask
   * gives 1.
   */
  function ReadPinValue(r: RegisterFile, prt: Port, pin: bv8): (v: int)
    ensures v == 0 || v == 1
    ensures v == 1 <==> Masked(ReadPortValue(r, prt), pin) == pin
  {
    var pins: bv8 := if IsDataPort(prt) then Masked(ReadPortValue(r, prt), pin) else 0;
    if pins == pin then 1 else 0
  }

  // Properties of the operations

  /** Control bit positions: A is bit 4, B is bit 1, both halves of C are bit 0. */
  lemma CtrlBitPositions()
    ensures CtrlBit(PortA) == PinMask(4)
    ensures CtrlBit(PortB) == PinMask(1)
    ensures CtrlBit(PortCL) == PinMask(0)
    ensures CtrlBit(PortCH) == PinMask(0)
  {
  }

  /**
   * setPort on the high half of port C does exactly what it does on the low
   * half: bit 0 follows the mode and bit 3 is left alone.
   */
  lemma SetPortHighHalfActsOnLowHalf(r: RegisterFile, mode: int)
    ensures SetPortValue(r, PortCH, mode) == SetPortValue(r, PortCL, mode)
    ensures SetPortValue(r, PortCH, mode).ioCtrl & Pin3 == r.ioCtrl & Pin3
    ensures (SetPortValue(r, PortCH, mode).ioCtrl & Pin0 != 0) <==> mode != 0
  {
  }

  /** With In the sub-port's control bit is set, with Out it is cleared. */
  lemma SetPortModes(r: RegisterFile, prt: Port)
    requires prt != PortC
    ensures SetPortValue(r, prt, In).ioCtrl & CtrlBit(prt) == CtrlBit(prt)
    ensures SetPortValue(r, prt, Out).ioCtrl & CtrlBit(prt) == 0
  {
  }

  /** After a successful initIOCtrl every sub-port is configured as output. */
  lemma InitLeavesEveryPortOutput(r: RegisterFile, prt: Port)
    requires prt != PortC
    ensures InitIOCtrlValue(r, true).regs.ioCtrl & CtrlBit(prt) == 0
    ensures InitIOCtrlValue(r, true).regs.ioCtrl & Pin3 == 0
  {
  }

  /** pinOn is idempotent. */
  lemma PinOnIdempotent(r: RegisterFile, prt: Port, pn: bv8)
    ensures PinOnValue(PinOnValue(r, prt, pn), prt, pn) == PinOnValue(r, prt, pn)
  {
  }

  /** pinOff is idempotent. */
  lemma PinOffIdempotent(r: RegisterFile, prt: Port, pn: bv8)
    ensures PinOffValue(PinOffValue(r, prt, pn), prt, pn) == PinOffValue(r, prt, pn)
  {
  }

  /** pinOn, pinOff and writePins on a nibble variant change no register. */
  lemma DataOpsIgnoreNibbles(r: RegisterFile, prt: Port, b: bv8)
    requires prt == PortCH || prt == PortCL
    ensures PinOnValue(r, prt, b) == r
    ensures PinOffValue(r, prt, b) == r
    ensures WritePinsValue(r, prt, b) == r
  {
  }

  /**
   * writePins followed by readPort returns the written byte on A, B and C;
   * readPort of a nibble variant is 0 whatever was written.
   */
  lemma WritePinsThenReadPort(r: RegisterFile, prt: Port, b: bv8)
    ensures IsDataPort(prt) ==> ReadPortValue(WritePinsValue(r, prt, b), prt) == b
    ensures !IsDataPort(prt) ==> ReadPortValue(WritePinsValue(r, prt, b), prt) == 0
  {
  }

  /** readPin with the empty mask is 1 on every port. */
  lemma ReadPinEmptyMask(r: RegisterFile, prt: Port)
    ensures ReadPinValue(r, prt, 0) == 1
  {
  }

  /** readPin on a nibble variant is 1 exactly for the empty mask. */
  lemma ReadPinOnNibble(r: RegisterFile, prt: Port, pin: bv8)
    requires prt == PortCH || prt == PortCL
    ensures ReadPinValue(r, prt, pin) == 1 <==> pin == 0
  {
  }

  /** A mask meets every selector it shares a bit with in any byte that contains it. */
  lemma ContainedMaskMeets(x: bv8, m: bv8, p: bv8)
    requires x & m == m && m & p != 0
    ensures x & p != 0
  {
  }

  /** A pin that the mask names but the byte lacks, when the byte does not contain the mask. */
  function LowPin(x: bv8, m: bv8): (i: nat)
    requires x & m != m
    ensures i < 8 && m & PinMask(i) != 0 && x & PinMask(i) == 0
  {
    if m & Pin0 != 0 && x & Pin0 == 0 then 0
    else if m & Pin1 != 0 && x & Pin1 == 0 then 1
    else if m & Pin2 != 0 && x & Pin2 == 0 then 2
    else if m & Pin3 != 0 && x & Pin3 == 0 then 3
    else if m & Pin4 != 0 && x & Pin4 == 0 then 4
    else if m & Pin5 != 0 && x & Pin5 == 0 then 5
    else if m & Pin6 != 0 && x & Pin6 == 0 then 6
    else 7
  }

  /** A byte contains a mask exactly when it contains each pin the mask names. */
  lemma ContainsEveryPin(x: bv8, m: bv8)
    ensures x & m == m <==> forall i :: 0 <= i < 8 && m & PinMask(i) != 0 ==> x & PinMask(i) != 0
  {
    if x & m == m {
      forall i | 0 <= i < 8 && m & PinMask(i) != 0
        ensures x & PinMask(i) != 0
      {
        ContainedMaskMeets(x, m, PinMask(i));
      }
    } else {
      var i := LowPin(x, m);
    }
  }

  /**
   * readPin is an all-pins test: it gives 1 exactly when every pin named by
   * the mask is high on the port.
   */
  lemma ReadPinMeansEveryPinHigh(r: RegisterFile, prt: Port, pin: bv8)
    ensures ReadPinValue(r, prt, pin) == 1 <==>
      forall i :: 0 <= i < 8 && pin & PinMask(i) != 0 ==> ReadPortValue(r, prt) & PinMask(i) != 0
  {
    ContainsEveryPin(ReadPortValue(r, prt), pin);
  }

  /** readPin is not an any-pin test: one high pin of two gives 0. */
  lemma ReadPinIsNotAnyPin(r: RegisterFile)
    requires r.portA == Pin0
    ensures ReadPortValue(r, PortA) & (Pin0 | Pin1) != 0
    ensures ReadPinValue(r, PortA, Pin0 | Pin1) == 0
  {
  }

  /**
   * The controller: the five registers as bytes. The driver keeps no record
   * of whether it was initialised; the ghost flag initialized stands for
   * the rule that only initIOCtrl may run before a successful initIOCtrl.
   */
  class PortController {
    var baseReg: bv8
    var ioCtrlReg: bv8
    var portAReg: bv8
    var portBReg: bv8
    var portCReg: bv8
    ghost var initialized: bool

    /** The current contents of the five registers. */
    function Regs(): RegisterFile
      reads this
    {
      RegisterFile(baseReg, ioCtrlReg, portAReg, portBReg, portCReg)
    }

    /** A controller whose registers hold whatever the board powered up with. */
    constructor (powerOn: RegisterFile)
      ensures Regs() == powerOn && !initialized
    {
      baseReg, ioCtrlReg := powerOn.base, powerOn.ioCtrl;
      portAReg, portBReg, portCReg := powerOn.portA, powerOn.portB, powerOn.portC;
      initialized := false;
    }

    /** initIOCtrl; permitted is the outcome of the privileged-I/O request. */
    method InitIOCtrl(permitted: bool) returns (rc: int)
      modifies this
      ensures rc == InitIOCtrlValue(old(Regs()), permitted).rc
      ensures Regs() == InitIOCtrlValue(old(Regs()), permitted).regs
      ensures initialized == (old(initialized) || permitted)
    {
      if !permitted {
        return FailedPermission;
      }
      baseReg := BaseMode;
      ioCtrlReg := AllOutput;
      initialized := true;
      return InitOk;
    }

    /** setPort: a read-modify-write of one control bit. */
    method SetPort(prt: Port, mode: int)
      requires initialized && prt != PortC
      modifies this
      ensures Regs() == SetPortValue(old(Regs()), prt, mode)
      ensures initialized
    {
      var pin := CtrlBit(prt);  // the switch on prt, PortCH falling into PortCL
      var tmp := ioCtrlReg;
      if mode != 0 {
        ioCtrlReg := WithBits(tmp, pin);
      } else {
        ioCtrlReg := WithoutBits(tmp, pin);
      }
    }

    /** pinOn: OR the mask into the port's data register. */
    method PinOn(prt: Port, pn: bv8)
      requires initialized
      modifies this
      ensures Regs() == PinOnValue(old(Regs()), prt, pn)
      ensures initialized
    {
      var pins: bv8;
      match prt {
        case PortA =>
          pins := portAReg;
          pins := WithBits(pins, pn);
          portAReg := pins;
        case PortB =>
          pins := portBReg;
          pins := WithBits(pins, pn);
          portBReg := pins;
        case PortC =>
          pins := portCReg;
          pins := WithBits(pins, pn);
          portCReg := pins;
        case _ =>
      }
    }

    /** pinOff: AND the complement of the mask into the port's data register. */
    method PinOff(prt: Port, pn: bv8)
      requires initialized
      modifies this
      ensures Regs() == PinOffValue(old(Regs()), prt, pn)
      ensures initialized
    {
      var pins: bv8;
      match prt {
        case PortA =>
          pins := portAReg;
          pins := WithoutBits(pins, pn);
          portAReg := pins;
        case PortB =>
          pins := portBReg;
          pins := WithoutBits(pins, pn);
          portBReg := pins;
        case PortC =>
          pins := portCReg;
          pins := WithoutBits(pins, pn);
          portCReg := pins;
        case _ =>
      }
    }

    /** writePins: overwrite the port's data register. */
    method WritePins(prt: Port, pins: bv8)
      requires initialized
      modifies this
      ensures Regs() == WritePinsValue(old(Regs()), prt, pins)
      ensures initialized
    {
      match prt {
        case PortA =>
          portAReg := pins;
        case PortB =>
          portBReg := pins;
        case PortC =>
          portCReg := pins;
        case _ =>
      }
    }

    /** readPin: 1 when every pin of the mask is high, 0 otherwise. */
    method ReadPin(prt: Port, pin: bv8) returns (v: int)
      requires initialized
      ensures v == ReadPinValue(Regs(), prt, pin)
    {
      var pins: bv8 := 0;
      match prt {
        case PortA =>
          pins := portAReg;
          pins := Masked(pins, pin);
        case PortB =>
          pins := portBReg;
          pins := Masked(pins, pin);
        case PortC =>
          pins := portCReg;
          pins := Masked(pins, pin);
        case _ =>
      }
      if pins == pin {
        v := 1;
      } else {
        v := 0;
      }
    }

    /** readPort: the port's data register, or 0 for a nibble variant. */
    method ReadPort(prt: Port) returns (pins: bv8)
      requires initialized
      ensures pins == ReadPortValue(Regs(), prt)
      ensures !IsDataPort(prt) ==> pins == 0
    {
      pins := 0;
      match prt {
        case PortA =>
          pins := portAReg;
        case PortB =>
          pins := portBReg;
        case PortC =>
          pins := portCReg;
        case _ =>
      }
    }
  }

  /**
   * A client session: initialise, set the low half of port C to output,
   * raise pin 0 of port C and read it, then lower it and read it again.
   */
  method PortCPin0Session(powerOn: RegisterFile) returns (rc: int, high: int, low: int)
    ensures rc == InitOk && high == 1 && low == 0
  {
    var ctl := new PortController(powerOn);
    rc := ctl.InitIOCtrl(true);
    ctl.SetPort(PortCL, Out);
    ctl.PinOn(PortC, Pin0);
    high := ctl.ReadPin(PortC, Pin0);
    ctl.PinOff(PortC, Pin0);
    low := ctl.ReadPin(PortC, Pin0);
  }
}
