/** The role manager and the role-switch monitor as a step machine.

    Two threads share two signals: the manager writes the role and pulses role_changed for
    10 ns, the monitor answers each rising edge it is waiting for by dropping both enables
    and raising the right one 1 us later. The environment drives the attachment inputs and
    requests roles whenever it likes. */
module RoleMachine {
  import opened Kernel
  import opened UsbTypes

  const PULSE_NS: nat := 10
  const GUARD_NS: nat := 1000

  datatype ManagerPc = ManagerStart | AwaitInput | InPulse(due: nat)

  datatype Manager = Manager(pc: ManagerPc, ready: bool, role: Role, hostRequested: bool, deviceRequested: bool,
                             currentRole: Signal<Role>, roleChanged: Signal<bool>)

  /** `role` is the monitor's own copy: the role it read at the edge it served last. */
  datatype MonitorPc = MonitorStart | AwaitEdge | Guard(due: nat)

  datatype Monitor = Monitor(pc: MonitorPc, ready: bool, role: Role, hostEnable: Signal<bool>, devEnable: Signal<bool>)

  datatype State = State(now: nat, cc: Signal<Cc>, vbus: Signal<bool>, requestEvent: bool,
                         mgr: Manager, mon: Monitor)

  /** The role the attachment inputs ask for. */
  function Attached(cc: Cc, vbus: bool): Role {
    if cc == UfpAttached && vbus then Host
    else if cc == DfpAttached && vbus then Device
    else RoleNone
  }

  function Requested(m: Manager, r: Role): Manager {
    m.(hostRequested := m.hostRequested || r == Host, deviceRequested := m.deviceRequested || r == Device)
  }

  function ApplyRole(m: Manager, role: Role, now: nat): Manager {
    if role == m.role then m.(pc := AwaitInput)
    else m.(role := role, currentRole := m.currentRole.Write(role), roleChanged := m.roleChanged.Write(true),
            pc := InPulse(now + PULSE_NS))
  }

  /** One uninterrupted run of the manager, with the inputs as its ports show them. */
  function ManagerRun(m0: Manager, cc: Cc, vbus: bool, now: nat): Manager {
    var m := m0.(ready := false);
    match m.pc
    case ManagerStart =>
      m.(currentRole := m.currentRole.Write(RoleNone), roleChanged := m.roleChanged.Write(false), pc := AwaitInput)
    case AwaitInput =>
      var desired := Attached(cc, vbus);
      if desired != m.role || m.hostRequested || m.deviceRequested then
        var chosen := if m.deviceRequested then Device else if m.hostRequested then Host else desired;
        ApplyRole(m.(hostRequested := false, deviceRequested := false), chosen, now)
      else m
    case InPulse(_) => m.(roleChanged := m.roleChanged.Write(false), pc := AwaitInput)
  }

  /** One uninterrupted run of the monitor, with the role as its port shows it. */
  function MonitorRun(m0: Monitor, role: Role, now: nat): Monitor {
    var m := m0.(ready := false);
    match m.pc
    case MonitorStart =>
      m.(hostEnable := m.hostEnable.Write(false), devEnable := m.devEnable.Write(false), pc := AwaitEdge)
    case AwaitEdge =>
      m.(role := role, hostEnable := m.hostEnable.Write(false), devEnable := m.devEnable.Write(false),
         pc := Guard(now + GUARD_NS))
    case Guard(_) =>
      m.(hostEnable := if m.role == Host then m.hostEnable.Write(true) else m.hostEnable,
         devEnable := if m.role == Device then m.devEnable.Write(true) else m.devEnable,
         pc := AwaitEdge)
  }

  function ManagerDelta(m: Manager, woken: bool): Manager {
    m.(currentRole := m.currentRole.Update(), roleChanged := m.roleChanged.Update(),
       ready := m.ready || (m.pc.AwaitInput? && woken))
  }

  function MonitorDelta(m: Monitor, edge: bool): Monitor {
    m.(hostEnable := m.hostEnable.Update(), devEnable := m.devEnable.Update(),
       ready := m.ready || (m.pc.AwaitEdge? && edge))
  }

  function Delta(s: State): State {
    s.(cc := s.cc.Update(), vbus := s.vbus.Update(), requestEvent := false,
       mgr := ManagerDelta(s.mgr, s.cc.Changes() || s.vbus.Changes() || s.requestEvent),
       mon := MonitorDelta(s.mon, Rises(s.mgr.roleChanged)))
  }

  /** No signal has a value waiting to become visible. */
  predicate Settled(s: State) {
    && !s.cc.Changes() && !s.vbus.Changes()
    && !s.mgr.currentRole.Changes() && !s.mgr.roleChanged.Changes()
    && !s.mon.hostEnable.Changes() && !s.mon.devEnable.Changes()
  }

  function Advance(s: State, d: nat): State {
    var now := s.now + d;
    s.(now := now,
       mgr := s.mgr.(ready := s.mgr.ready || (s.mgr.pc.InPulse? && s.mgr.pc.due == now)),
       mon := s.mon.(ready := s.mon.ready || (s.mon.pc.Guard? && s.mon.pc.due == now)))
  }

  /** `OtherRuns` stands for a process elsewhere in the design, which changes nothing here. */
  datatype Action =
    | OtherRuns
    | SetInputs(cc: Cc, vbus: bool)
    | RequestRole(role: Role)
    | RunManager
    | RunMonitor
    | DoDelta
    | DoAdvance(d: nat)

  predicate Enabled(s: State, a: Action) {
    match a
    case OtherRuns | SetInputs(_, _) | RequestRole(_) => true
    case RunManager => s.mgr.ready
    case RunMonitor => s.mon.ready
    case DoDelta => !s.mgr.ready && !s.mon.ready
    case DoAdvance(d) =>
      && d > 0 && !s.mgr.ready && !s.mon.ready && !s.requestEvent && Settled(s)
      && (s.mgr.pc.InPulse? ==> s.now + d <= s.mgr.pc.due)
      && (s.mon.pc.Guard? ==> s.now + d <= s.mon.pc.due)
  }

  function Step(s: State, a: Action): State {
    match a
    case OtherRuns => s
    case SetInputs(cc, vbus) => s.(cc := s.cc.Write(cc), vbus := s.vbus.Write(vbus))
    case RequestRole(r) => s.(mgr := Requested(s.mgr, r), requestEvent := true)
    case RunManager => s.(mgr := ManagerRun(s.mgr, s.cc.cur, s.vbus.cur, s.now))
    case RunMonitor => s.(mon := MonitorRun(s.mon, s.mgr.currentRole.cur, s.now))
    case DoDelta => Delta(s)
    case DoAdvance(d) => Advance(s, d)
  }

  const RESET := State(0, Signal(Disconnected, Disconnected), Signal(false, false), false,
                       Manager(ManagerStart, true, RoleNone, false, false,
                               Signal(RoleNone, RoleNone), Signal(false, false)),
                       Monitor(MonitorStart, true, RoleNone, Signal(false, false), Signal(false, false)))

  /** A run: reset, then any number of steps, each allowed where it is taken. */
  ghost predicate Run(t: seq<State>, a: seq<Action>) {
    && |t| == |a| + 1
    && t[0] == RESET
    && forall i | 0 <= i < |a| :: Enabled(t[i], a[i]) && t[i + 1] == Step(t[i], a[i])
  }
}
