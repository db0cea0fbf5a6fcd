/** The interrupt collector and the register block as a step machine.

    The collector is a method process: it becomes runnable when a source it watches changes,
    and raises the bits of the sources it then sees high. The environment drives the sources,
    raises the role-changed bit, and writes registers whenever it likes; `Idle` stands for a
    process elsewhere, which changes nothing here. */
module InterruptMachine {
  import opened Kernel
  import opened Registers

  /** The sources the collector turns into status bits. */
  datatype Source = EnumDone | XferDone | BulkIrq

  function BitOf(src: Source): nat {
    match src case EnumDone => 3 case XferDone => 4 case BulkIrq => 5
  }

  datatype State = State(enumDone: Signal<bool>, xferDone: Signal<bool>, bulkIrq: Signal<bool>,
                         roleChanged: Signal<bool>, ready: bool, regs: Regs)

  function Level(s: State, src: Source): Signal<bool> {
    match src case EnumDone => s.enumDone case XferDone => s.xferDone case BulkIrq => s.bulkIrq
  }

  function Collected(s: State, devAddr: Word): seq<Event> {
    CollectorEvents(s.enumDone.cur, s.xferDone.cur, s.bulkIrq.cur, devAddr)
  }

  /** Both edges of the first three wake the collector, only the rising one of the last. */
  function Delta(s: State): State {
    s.(enumDone := s.enumDone.Update(), xferDone := s.xferDone.Update(), bulkIrq := s.bulkIrq.Update(),
       roleChanged := s.roleChanged.Update(),
       ready := s.ready || s.roleChanged.Changes() || s.enumDone.Changes() || s.xferDone.Changes() || Rises(s.bulkIrq))
  }

  datatype Action =
    | Idle
    | DriveHost(enumDone: bool, xferDone: bool)
    | DriveBulk(bulkIrq: bool)
    | DriveRole(roleChanged: bool)
    | RaiseRole
    | Access(addr: nat, val: Word)
    | RunCollector(devAddr: Word)
    | DoDelta
    | DoAdvance

  predicate Enabled(s: State, a: Action) {
    match a
    case RunCollector(_) => s.ready
    case DoDelta => !s.ready
    case DoAdvance =>
      && !s.ready && !s.enumDone.Changes() && !s.xferDone.Changes()
      && !s.bulkIrq.Changes() && !s.roleChanged.Changes()
    case _ => true
  }

  /** The register events a step brings about. */
  function EventsOf(s: State, a: Action): seq<Event> {
    match a
    case RaiseRole => [Raise({ROLE_CHANGED})]
    case Access(addr, val) => [WriteReg(addr, val)]
    case RunCollector(devAddr) => Collected(s, devAddr)
    case _ => []
  }

  function Step(s: State, a: Action): State {
    match a
    case Idle => s
    case DriveHost(enumDone, xferDone) =>
      s.(enumDone := s.enumDone.Write(enumDone), xferDone := s.xferDone.Write(xferDone))
    case DriveBulk(bulkIrq) => s.(bulkIrq := s.bulkIrq.Write(bulkIrq))
    case DriveRole(roleChanged) => s.(roleChanged := s.roleChanged.Write(roleChanged))
    case RaiseRole => s.(regs := Raised(s.regs, {ROLE_CHANGED}))
    case Access(addr, val) => s.(regs := Written(s.regs, addr, val))
    case RunCollector(devAddr) => s.(ready := false, regs := After(s.regs, Collected(s, devAddr)))
    case DoDelta => Delta(s)
    case DoAdvance => s
  }

  const RESET: State :=
    State(Signal(false, false), Signal(false, false), Signal(false, false), Signal(false, false),
          false, Registers.RESET)

  /** A run: reset, then any number of steps, each allowed where it is taken. */
  ghost predicate Run(t: seq<State>, a: seq<Action>) {
    && |t| == |a| + 1
    && t[0] == RESET
    && forall i | 0 <= i < |a| :: Enabled(t[i], a[i]) && t[i + 1] == Step(t[i], a[i])
  }
}
