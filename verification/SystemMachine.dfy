/** The whole controller, as its top level wires it: the role subsystem, the host side with the
    router, the device block and the peer, the copy thread, and the interrupt block.

    Each was studied against an environment that may do anything. Here every step of the whole
    is one step of each part, and the wires tie what a part is shown to what another drives: the
    monitor's host enable is the host's enable; the router and the device block see the role and
    the device enable at each update phase; the collector watches the other parts' signals, the
    monitor raises its interrupt; a register write can ask for a role. */
module SystemMachine {
  import opened Kernel
  import opened UsbTypes
  import opened Transport
  import opened Registers
  import R = RoleMachine
  import H = HostMachine
  import L = Loopback
  import I = InterruptMachine

  /** The device's copy thread. Its slots are in the host side's view of the platform. */
  datatype Copier = Copier(pc: L.Pc, ready: bool, bulkIrq: Signal<bool>)

  datatype State = State(r: R.State, h: H.State, c: Copier, i: I.State)

  datatype Action =
    | SetInputs(cc: Cc, vbus: bool)
    | Access(addr: nat, val: Word)
    | SubmitOut(devAddr: byte, endpoint: byte, data: seq<byte>)
    | SubmitIn(devAddr: byte, endpoint: byte, len: nat)
    | RunManager
    | RunMonitor
    | RunHost
    | RunCopy
    | RunCollector
    | DoDelta
    | DoAdvance(d: nat)

  // ----- the parts' shares of a step -----

  function RoleAction(a: Action): R.Action {
    match a
    case SetInputs(cc, vbus) => R.SetInputs(cc, vbus)
    case Access(addr, val) =>
      (match RoleWritten(addr, val) case Some(role) => R.RequestRole(role) case None => R.OtherRuns)
    case RunManager => R.RunManager
    case RunMonitor => R.RunMonitor
    case DoDelta => R.DoDelta
    case DoAdvance(d) => R.DoAdvance(d)
    case _ => R.OtherRuns
  }

  function RoleAfter(s: State, a: Action): R.State { R.Step(s.r, RoleAction(a)) }

  function HostAction(s: State, a: Action): H.Action {
    match a
    case RunMonitor => H.SetEnable(RoleAfter(s, a).mon.hostEnable.next)
    case RunHost => H.RunHost
    case RunCopy => if s.c.pc.AwaitOut? then H.RunCopy else H.OtherRuns
    case SubmitOut(addr, ep, data) => H.SubmitOut(addr, ep, data)
    case SubmitIn(addr, ep, len) => H.SubmitIn(addr, ep, len)
    case DoDelta =>
      var r := RoleAfter(s, a);
      H.DoDelta(r.mgr.currentRole.cur, r.mon.devEnable.cur)
    case DoAdvance(d) => H.DoAdvance(d)
    case _ => H.OtherRuns
  }

  function HostAfter(s: State, a: Action): H.State { H.Step(s.h, HostAction(s, a)) }

  /** The copy thread with the platform it works on. */
  function Loop(s: State): L.State { L.State(s.h.net, s.c.pc, s.c.ready, s.c.bulkIrq, s.h.now) }

  function CopierAfter(s: State, a: Action): Copier {
    var l := match a
             case RunCopy => L.CopyRun(Loop(s))
             case DoDelta => L.Delta(Loop(s))
             case DoAdvance(d) => L.Advance(Loop(s), d)
             case _ => Loop(s);
    Copier(l.pc, l.ready, l.bulkIrq)
  }

  function WordOf(b: byte): Word { set k: nat | k < 8 && b / Pow2(k) % 2 == 1 }

  function Pow2(k: nat): (p: nat)
    ensures p > 0
  {
    if k == 0 then 1 else 2 * Pow2(k - 1)
  }

  function IrqAction(s: State, a: Action): I.Action {
    match a
    case Access(addr, val) => I.Access(addr, val)
    case RunCollector => I.RunCollector(WordOf(s.h.addrOut.cur))
    case RunMonitor => if s.r.mon.pc.Guard? then I.RaiseRole else I.Idle
    case RunManager => I.DriveRole(RoleAfter(s, a).mgr.roleChanged.next)
    case RunHost => var h := HostAfter(s, a); I.DriveHost(h.enumDone.next, h.xferDone.next)
    case RunCopy => I.DriveBulk(CopierAfter(s, a).bulkIrq.next)
    case DoDelta => I.DoDelta
    case DoAdvance(_) => I.DoAdvance
    case _ => I.Idle
  }

  // ----- steps and runs -----

  predicate CopierEnabled(s: State, a: Action) {
    match a
    case RunCopy => L.Enabled(Loop(s), L.RunCopy)
    case DoDelta => L.Enabled(Loop(s), L.DoDelta)
    case DoAdvance(d) => L.Enabled(Loop(s), L.DoAdvance(d))
    case _ => true
  }

  /** Every part can take its share. */
  predicate Enabled(s: State, a: Action) {
    && R.Enabled(s.r, RoleAction(a)) && H.Enabled(s.h, HostAction(s, a))
    && CopierEnabled(s, a) && I.Enabled(s.i, IrqAction(s, a))
  }

  function Step(s: State, a: Action): State {
    State(RoleAfter(s, a), HostAfter(s, a), CopierAfter(s, a), I.Step(s.i, IrqAction(s, a)))
  }

  function Reset(devRom: Rom, peerRom: Rom): State {
    State(R.RESET, H.Reset(devRom, peerRom), Copier(L.AwaitOut, false, Signal(false, false)), I.RESET)
  }

  ghost predicate Run(t: seq<State>, a: seq<Action>) {
    && |t| == |a| + 1
    && (exists devRom, peerRom :: t[0] == Reset(devRom, peerRom))
    && forall i | 0 <= i < |a| :: Enabled(t[i], a[i]) && t[i + 1] == Step(t[i], a[i])
  }
}
