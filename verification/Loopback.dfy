/** The device controller's bulk loopback: packets land in EP2, a thread copies EP2 to EP1, and
    bulk IN requests drain EP1. Both slots hold one payload and a write replaces what is there.

    The environment sends any packet from the link at any moment, lets the host side transmit
    anything, with or without metadata, and switches role and enable. */
module Loopback {
  import opened Kernel
  import opened UsbTypes
  import opened Transport
  import HostMachine

  const IRQ_NS: nat := 10

  datatype Pc = AwaitOut | CopyPulse(due: nat)

  datatype State = State(net: Net, pc: Pc, ready: bool, bulkIrq: Signal<bool>, now: nat)

  /** One uninterrupted run of the copy thread. A notification that finds the device not
      configured, or EP2 empty, is used up without a copy. */
  function CopyRun(s0: State): State {
    var s := s0.(ready := false);
    match s.pc
    case AwaitOut =>
      if Copies(s.net) then s.(net := Copied(s.net), bulkIrq := s.bulkIrq.Write(true), pc := CopyPulse(s.now + IRQ_NS))
      else s
    case CopyPulse(_) => s.(bulkIrq := s.bulkIrq.Write(false), pc := AwaitOut)
  }

  function Delta(s: State): State {
    s.(bulkIrq := s.bulkIrq.Update(), ready := s.ready || (s.pc.AwaitOut? && s.net.dev.outPending),
       net := s.net.(dev := s.net.dev.(outPending := false)))
  }

  function Advance(s: State, d: nat): State {
    s.(now := s.now + d, ready := s.ready || (s.pc.CopyPulse? && s.pc.due == s.now + d))
  }

  datatype Action =
    | FromLink(p: Packet)
    | HostSends(e: Ext, data: seq<byte>)
    | HostSendsBare(data: seq<byte>)
    | SetRole(role: Role, devEnable: bool)
    | RunCopy
    | DoDelta
    | DoAdvance(d: nat)

  predicate Enabled(s: State, a: Action) {
    match a
    case RunCopy => s.ready
    case DoDelta => !s.ready
    case DoAdvance(d) =>
      && d > 0 && !s.ready && !s.net.dev.outPending && !s.bulkIrq.Changes()
      && (s.pc.CopyPulse? ==> s.now + d <= s.pc.due)
    case _ => true
  }

  function Step(s: State, a: Action): State {
    match a
    case FromLink(p) => s.(net := Received(s.net, p))
    case HostSends(e, data) => s.(net := Sent(s.net, HostSide, e, data))
    case HostSendsBare(data) => s.(net := SentBare(s.net, HostSide, data))
    case SetRole(role, devEnable) => s.(net := s.net.(role := role, devEnable := devEnable))
    case RunCopy => CopyRun(s)
    case DoDelta => Delta(s)
    case DoAdvance(d) => Advance(s, d)
  }

  function Reset(devRom: Rom, peerRom: Rom): State {
    State(HostMachine.ResetNet(devRom, peerRom), AwaitOut, false, Signal(false, false), 0)
  }

  ghost predicate Run(t: seq<State>, a: seq<Action>) {
    && |t| == |a| + 1
    && (exists devRom, peerRom :: t[0] == Reset(devRom, peerRom))
    && forall i | 0 <= i < |a| :: Enabled(t[i], a[i]) && t[i + 1] == Step(t[i], a[i])
  }
}
