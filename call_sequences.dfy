/**
 * Sequences of driver calls. After initIOCtrl a client may issue setPort,
 * pinOn, pinOff and writePins in any order and any number of times; these
 * lemmas say what every such sequence keeps.
 */
module CallSequences {
  import opened PortDefs
  import opened PortCtrl

  /** One register-changing call of the driver. */
  datatype Call =
    | SetPort(sub: Port, mode: int)
    | PinOn(prt: Port, mask: bv8)
    | PinOff(prt: Port, mask: bv8)
    | WritePins(prt: Port, pins: bv8)

  /** setPort is never called with PortC (it would read an unset local). */
  predicate Allowed(c: Call) {
    !(c.SetPort? && c.sub == PortC)
  }

  predicate AllAllowed(calls: seq<Call>) {
    forall i :: 0 <= i < |calls| ==> Allowed(calls[i])
  }

  /** Data port a call writes, if any: setPort writes none. */
  predicate Writes(c: Call, p: Port) {
    !c.SetPort? && c.prt == p
  }

  /** The control bits setPort can reach: bit 4 (A), bit 1 (B) and bit 0 (both halves of C). */
  const ReachableCtrlBits: bv8 := 0x13

  function Step(r: RegisterFile, c: Call): RegisterFile
    requires Allowed(c)
  {
    match c
    case SetPort(sub, mode) => SetPortValue(r, sub, mode)
    case PinOn(prt, mask) => PinOnValue(r, prt, mask)
    case PinOff(prt, mask) => PinOffValue(r, prt, mask)
    case WritePins(prt, pins) => WritePinsValue(r, prt, pins)
  }

  /** The register file after the calls, in order. */
  function Run(r: RegisterFile, calls: seq<Call>): RegisterFile
    requires AllAllowed(calls)
    decreases |calls|
  {
    if calls == [] then r else Run(Step(r, calls[0]), calls[1..])
  }

  /** No call writes the base register. */
  lemma {:induction false} RunKeepsBase(r: RegisterFile, calls: seq<Call>)
    requires AllAllowed(calls)
    ensures Run(r, calls).base == r.base
    decreases |calls|
  {
    if calls != [] {
      RunKeepsBase(Step(r, calls[0]), calls[1..]);
    }
  }

  /** One call changes no control bit outside the reachable ones. */
  lemma StepConfinesControl(r: RegisterFile, c: Call)
    requires Allowed(c)
    ensures Step(r, c).ioCtrl & !ReachableCtrlBits == r.ioCtrl & !ReachableCtrlBits
  {
  }

  /** Any sequence of calls changes no control bit outside the reachable ones. */
  lemma {:induction false} RunConfinesControl(r: RegisterFile, calls: seq<Call>)
    requires AllAllowed(calls)
    ensures Run(r, calls).ioCtrl & !ReachableCtrlBits == r.ioCtrl & !ReachableCtrlBits
    decreases |calls|
  {
    if calls != [] {
      StepConfinesControl(r, calls[0]);
      RunConfinesControl(Step(r, calls[0]), calls[1..]);
    }
  }

  /**
   * After a successful initIOCtrl, whatever calls follow, the base register
   * keeps its mode byte and control bit 3 (the high half of port C) stays
   * clear: that half can never be switched to input.
   */
  lemma HighHalfOfPortCStaysOutput(r: RegisterFile, calls: seq<Call>)
    requires AllAllowed(calls)
    ensures Run(InitIOCtrlValue(r, true).regs, calls).base == BaseMode
    ensures Run(InitIOCtrlValue(r, true).regs, calls).ioCtrl & Pin3 == 0
  {
    var start := InitIOCtrlValue(r, true).regs;
    RunKeepsBase(start, calls);
    RunConfinesControl(start, calls);
  }

  /** A data port that no call writes keeps its byte. */
  lemma {:induction false} RunKeepsUnwrittenPort(r: RegisterFile, calls: seq<Call>, p: Port)
    requires AllAllowed(calls)
    requires IsDataPort(p)
    requires forall i :: 0 <= i < |calls| ==> !Writes(calls[i], p)
    ensures ReadPortValue(Run(r, calls), p) == ReadPortValue(r, p)
    decreases |calls|
  {
    if calls != [] {
      assert !Writes(calls[0], p);
      RunKeepsUnwrittenPort(Step(r, calls[0]), calls[1..], p);
    }
  }
}
