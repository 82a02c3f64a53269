/**
 * The fixed definitions of the Helios PC/104 GPIO controller: the port-space
 * addresses of its five registers, the two direction modes, the eight pin
 * masks, the permission-failure return code and the port enumeration.
 */
module PortDefs {

  // Port-space addresses of the registers
  const BaseIoRegister: int := 0x280
  const PortARegister: int := 0x288
  const PortBRegister: int := 0x289
  const PortCRegister: int := 0x28A
  const IoCtrlRegister: int := 0x28B

  // Direction modes accepted by setPort
  const Out: int := 0
  const In: int := 1

  // One mask per pin of a data register
  const Pin0: bv8 := 0x01
  const Pin1: bv8 := 0x02
  const Pin2: bv8 := 0x04
  const Pin3: bv8 := 0x08
  const Pin4: bv8 := 0x10
  const Pin5: bv8 := 0x20
  const Pin6: bv8 := 0x40
  const Pin7: bv8 := 0x80

  /** Returned by initIOCtrl when the privileged-I/O request is refused. */
  const FailedPermission: int := -1

  /**
   * The ports. PortA, PortB and PortC name whole data registers; PortCH and
   * PortCL name the high and low halves of port C for direction setting.
   */
  datatype Port = PortA | PortB | PortC | PortCH | PortCL

  const AllPorts: set<Port> := {PortA, PortB, PortC, PortCH, PortCL}

  /** The mask of pin i, as the named constants give it. */
  function PinMask(i: nat): (m: bv8)
    requires i < 8
    ensures m == (1 as bv8) << i
  {
    if i == 0 then Pin0
    else if i == 1 then Pin1
    else if i == 2 then Pin2
    else if i == 3 then Pin3
    else if i == 4 then Pin4
    else if i == 5 then Pin5
    else if i == 6 then Pin6
    else Pin7
  }

  /** No two pin masks share a bit. */
  lemma PinMasksDisjoint()
    ensures forall i, j :: 0 <= i < 8 && 0 <= j < 8 && i != j ==> PinMask(i) & PinMask(j) == 0
  {
  }

  /** Together the eight pin masks cover the whole byte. */
  lemma PinMasksCoverByte()
    ensures (((((((Pin0 | Pin1) | Pin2) | Pin3) | Pin4) | Pin5) | Pin6) | Pin7) == 0xFF
  {
  }

  /**
   * The five register addresses are distinct: the data registers of ports
   * A, B and C are consecutive, the control register follows them, and the
   * base register lies below all four.
   */
  lemma RegisterMap()
    ensures PortBRegister == PortARegister + 1 && PortCRegister == PortBRegister + 1
    ensures IoCtrlRegister == PortCRegister + 1
    ensures BaseIoRegister < PortARegister
    ensures |{BaseIoRegister, PortARegister, PortBRegister, PortCRegister, IoCtrlRegister}| == 5
  {
  }

  /** Exactly five port variants exist, and every port is one of them. */
  lemma PortVariants()
    ensures |AllPorts| == 5
    ensures forall p: Port :: p in AllPorts
  {
    forall p: Port ensures p in AllPorts {
      match p
      case PortA =>
      case PortB =>
      case PortC =>
      case PortCH =>
      case PortCL =>
    }
  }

  /** The permission failure code is not the success code 0 of initIOCtrl. */
  lemma FailedPermissionIsNotSuccess()
    ensures FailedPermission != 0 && FailedPermission < 0
  {
  }
}
