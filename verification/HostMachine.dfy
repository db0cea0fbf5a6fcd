/** The host controller's thread as a step machine, in an environment that may do anything.

    The thread's program counter sits at its waits. The environment writes the enable signal,
    shows any role and device enable at each update phase, queues transfers, runs the device's
    copy thread and lets time pass, in any order and at any moment the kernel allows. */
module HostMachine {
  import opened Kernel
  import opened UsbTypes
  import opened Descriptors
  import opened Transport

  const RING_DEPTH: nat := 256

  // Waits of the host thread, in nanoseconds.
  const SETUP_NS: nat := 5000
  const STATUS_NS: nat := 2000
  const SETTLE_NS: nat := 2_000_000
  const ENUM_PULSE_NS: nat := 10
  const XFER_PULSE_NS: nat := 1

  datatype Trb = Trb(payload: seq<byte>, length: uint32, devAddr: byte, endpoint: byte, direction: Direction)

  function OutTrb(devAddr: byte, endpoint: byte, data: seq<byte>): Trb {
    Trb(data, |data| % TWO32, devAddr, endpoint, HostToDevice)
  }

  function InTrb(devAddr: byte, endpoint: byte, len: nat): Trb {
    Trb([], len % TWO32, devAddr, endpoint, DeviceToHost)
  }

  /** The control requests of an enumeration, in order. */
  datatype Request = GetDevice | SetAddress(addr: byte) | GetConfig | GetBos | SetConfig

  predicate Reads(r: Request) { r.GetDevice? || r.GetConfig? || r.GetBos? }

  function RequestPacket(r: Request): SetupPkt {
    match r
    case GetDevice => SetupPkt(0x80, REQ_GET_DESCRIPTOR, DESC_DEVICE * 256, 0, 18)
    case SetAddress(a) => SetupPkt(0, REQ_SET_ADDRESS, a, 0, 0)
    case GetConfig => SetupPkt(0x80, REQ_GET_DESCRIPTOR, DESC_CONFIGURATION * 256, 0, 255)
    case GetBos => SetupPkt(0x80, REQ_GET_DESCRIPTOR, DESC_BOS * 256, 0, 255)
    case SetConfig => SetupPkt(0, REQ_SET_CONFIGURATION, 1, 0, 0)
  }

  /** Where the thread waits. Timed waits carry the time they end. */
  datatype Pc =
    | Start
    | AwaitEnable
    | SetupSent(req: Request, due: nat)
    | StatusSent(req: Request, ok: bool, due: nat)
    | Settling(due: nat)
    | EnumPulse(due: nat)
    | AwaitRing
    | TrbPulse(due: nat)

  predicate Timed(pc: Pc) { pc.SetupSent? || pc.StatusSent? || pc.Settling? || pc.EnumPulse? || pc.TrbPulse? }

  /** One executed transfer and the role the router saw while it was carried. */
  datatype Execution = Execution(trb: Trb, role: Role)

  /** History. `begunAs` and `begunAt` are the role and the time the last enumeration began in,
      `configAs` the role its configuration read went out in;
      `tick` counts update phases; `starts` and `ends` stamp each completion pulse's writes of
      true and false; `highNs` is how long transfer_done has been high, `rises` how often it rose. */
  datatype Log = Log(enqueued: seq<Trb>, executed: seq<Execution>, begunAs: Role, begunAt: nat, configAs: Role,
                     tick: nat, starts: seq<nat>, ends: seq<nat>, highNs: nat, rises: nat)

  datatype State = State(net: Net, pc: Pc, ready: bool,
                         enable: Signal<bool>, xferDone: Signal<bool>, enumDone: Signal<bool>, addrOut: Signal<byte>,
                         nextAddr: byte, info: DeviceInfo, descBuf: seq<byte>, rxBuf: seq<byte>,
                         ring: seq<Trb>, ringEvent: bool, now: nat, log: Log)

  // ----- control transfers -----

  function ControlTo(addr: byte, kind: PktType, r: Request): Ext {
    MakeExt(kind, if r.GetDevice? || r.SetAddress? then 0 else addr, 0,
            if kind == CtrlStatus && !Reads(r) then DeviceToHost else HostToDevice, Control)
  }

  function ControlExt(s: State, kind: PktType, r: Request): Ext { ControlTo(s.info.addr, kind, r) }

  function SendSetup(s: State, r: Request): State {
    var e := ControlExt(s, Setup, r).(setup := RequestPacket(r));
    s.(net := Sent(s.net, HostSide, e, Packed(RequestPacket(r))), pc := SetupSent(r, s.now + SETUP_NS))
  }

  /** After a read request the answer, if one came, moves to the caller's buffer. */
  function Collected(s: State, r: Request): State {
    if Reads(r) && s.net.respValid then
      s.(descBuf := if r.GetBos? then s.descBuf else s.net.respData,
         net := s.net.(respData := [], respValid := false))
    else s
  }

  function SendStatus(s: State, r: Request): State {
    s.(net := Sent(s.net, HostSide, ControlExt(s, CtrlStatus, r), [0]), pc := StatusSent(r, true, s.now + STATUS_NS))
  }

  // ----- enumeration and the ring -----

  function Begun(s: State): State {
    s.(info := NO_DEVICE, descBuf := [], log := s.log.(begunAs := s.net.role, begunAt := s.now))
  }

  function ConfigAsked(s: State): State { s.(log := s.log.(configAs := s.net.role)) }

  function BeginEnumeration(s: State): State { SendSetup(Begun(s), GetDevice) }

  function LoopTop(s: State): State {
    if s.enable.cur then BeginEnumeration(s) else s.(pc := AwaitEnable)
  }

  function TrbExt(t: Trb): Ext {
    MakeExt(if t.direction == HostToDevice then BulkOut else BulkIn, t.devAddr, t.endpoint, t.direction, Bulk)
  }

  function TrbData(t: Trb): seq<byte> {
    if t.direction == HostToDevice then t.payload else seq(t.length, _ => 0)
  }

  /** The answer to a bulk IN, if one came, moves to the receive buffer. */
  function InCollected(s: State, t: Trb): State {
    if t.direction == DeviceToHost && s.net.respValid then
      s.(rxBuf := s.net.respData, net := s.net.(respData := [], respValid := false))
    else s
  }

  /** Runs the oldest transfer. */
  function ExecuteHead(s: State): State
    requires s.ring != []
  {
    var t := s.ring[0];
    var log := s.log.(executed := s.log.executed + [Execution(t, s.net.role)],
                      starts := s.log.starts + [s.log.tick]);
    var s' := InCollected(s.(ring := s.ring[1..], net := Sent(s.net, HostSide, TrbExt(t), TrbData(t)), log := log), t);
    s'.(xferDone := s'.xferDone.Write(true), pc := TrbPulse(s'.now + XFER_PULSE_NS))
  }

  function RingTop(s: State): State {
    if !s.enable.cur then s.(pc := AwaitEnable)
    else if s.ring == [] then s.(pc := AwaitRing)
    else ExecuteHead(s)
  }

  /** The ids are read out of the answer and the next free address is taken. */
  function LearnIds(s: State): State {
    s.(info := ReadDeviceDescriptor(s.info, s.descBuf), nextAddr := (s.nextAddr + 1) % 256)
  }

  function LearnConfig(s: State): State {
    if |s.descBuf| >= 9 then s.(info := s.info.(activeConfig := s.descBuf[5])) else s
  }

  /** What follows a finished control transfer. Only the BOS read is best effort. */
  function AfterRequest(s: State, r: Request, ok: bool): State {
    if !ok && !r.GetBos? then RingTop(s)
    else match r
      case GetDevice =>
        SendSetup(LearnIds(s), SetAddress(s.nextAddr))
      case SetAddress(a) =>
        s.(info := s.info.(addr := a), addrOut := s.addrOut.Write(a), pc := Settling(s.now + SETTLE_NS))
      case GetConfig =>
        SendSetup(LearnConfig(s), GetBos)
      case GetBos => SendSetup(s, SetConfig)
      case SetConfig =>
        s.(info := s.info.(activeConfig := 1, enumerated := true), enumDone := s.enumDone.Write(true),
           pc := EnumPulse(s.now + ENUM_PULSE_NS))
  }

  /** What the thread does on leaving the wait it is in. */
  function Wake(s0: State): State {
    var s := s0.(ready := false);
    match s.pc
    case Start =>
      s.(xferDone := s.xferDone.Write(false), enumDone := s.enumDone.Write(false), addrOut := s.addrOut.Write(0))
    case SetupSent(r, _) => Collected(s, r)
    case EnumPulse(_) => s.(enumDone := s.enumDone.Write(false))
    case TrbPulse(_) => s.(xferDone := s.xferDone.Write(false), log := s.log.(ends := s.log.ends + [s.log.tick]))
    case _ => s
  }

  /** What it does then, up to the next wait. */
  function Continue(s: State): State {
    match s.pc
    case Start => LoopTop(s)
    case AwaitEnable => BeginEnumeration(s)
    case SetupSent(r, _) => SendStatus(s, r)
    case StatusSent(r, ok, _) => AfterRequest(s, r, ok)
    case Settling(_) => SendSetup(ConfigAsked(s), GetConfig)
    case EnumPulse(_) | AwaitRing | TrbPulse(_) => RingTop(s)
  }

  /** One uninterrupted run of the thread, from the wait it is in to the next. */
  function Resume(s: State): State { Continue(Wake(s)) }

  function Enqueued(s: State, t: Trb): State {
    s.(ring := s.ring + [t], ringEvent := true, log := s.log.(enqueued := s.log.enqueued + [t]))
  }

  // ----- the kernel -----

  /** Signals take their pending values and the events of the cycle fire; the role and the device
      enable show what the rest of the design drives. */
  function Delta(s: State, role: Role, devEnable: bool): State {
    s.(net := s.net.(role := role, devEnable := devEnable, dev := s.net.dev.(outPending := false)),
       enable := s.enable.Update(), xferDone := s.xferDone.Update(), enumDone := s.enumDone.Update(),
       addrOut := s.addrOut.Update(), ringEvent := false,
       ready := s.ready || (s.pc.AwaitEnable? && Rises(s.enable)) || (s.pc.AwaitRing? && s.ringEvent),
       log := s.log.(tick := s.log.tick + 1, rises := s.log.rises + if Rises(s.xferDone) then 1 else 0))
  }

  /** Nothing is runnable and nothing is pending, so time may move. */
  predicate Quiet(s: State) {
    && !s.ready && !s.ringEvent
    && !s.enable.Changes() && !s.xferDone.Changes() && !s.enumDone.Changes() && !s.addrOut.Changes()
  }

  function Advance(s: State, d: nat): State {
    s.(now := s.now + d, ready := s.ready || (Timed(s.pc) && s.now + d == s.pc.due),
       log := s.log.(highNs := s.log.highNs + if s.xferDone.cur then d else 0))
  }

  /** What can happen next: the thread runs, the environment acts, or the kernel moves on.
      `OtherRuns` stands for a process elsewhere in the design, which changes nothing here. */
  datatype Action =
    | RunHost
    | OtherRuns
    | SetEnable(on: bool)
    | SubmitOut(devAddr: byte, endpoint: byte, data: seq<byte>)
    | SubmitIn(devAddr: byte, endpoint: byte, len: nat)
    | RunCopy
    | DoDelta(role: Role, devEnable: bool)
    | DoAdvance(d: nat)

  predicate Enabled(s: State, a: Action) {
    match a
    case RunHost => s.ready
    case SubmitOut(_, _, _) | SubmitIn(_, _, _) => |s.ring| < RING_DEPTH
    case DoDelta(_, _) => !s.ready
    case DoAdvance(d) => d > 0 && Quiet(s) && (Timed(s.pc) ==> s.now + d <= s.pc.due)
    case _ => true
  }

  function Step(s: State, a: Action): State {
    match a
    case RunHost => Resume(s)
    case OtherRuns => s
    case SetEnable(on) => s.(enable := s.enable.Write(on))
    case SubmitOut(addr, ep, data) => Enqueued(s, OutTrb(addr, ep, data))
    case SubmitIn(addr, ep, len) => Enqueued(s, InTrb(addr, ep, len))
    case RunCopy => s.(net := Copied(s.net))
    case DoDelta(role, devEnable) => Delta(s, role, devEnable)
    case DoAdvance(d) => Advance(s, d)
  }

  const RESET_LOG := Log([], [], RoleNone, 0, RoleNone, 0, [], [], 0, 0)

  function ResetNet(devRom: Rom, peerRom: Rom): Net {
    Net(RoleNone, false, 0, [], [], false,
        DeviceState(devRom, false, false, 0, EMPTY_FIFO, EMPTY_FIFO, false, [], [], 0),
        PeerState(peerRom, 0, false, []))
  }

  function Reset(devRom: Rom, peerRom: Rom): State {
    State(ResetNet(devRom, peerRom), Start, true,
          Signal(false, false), Signal(false, false), Signal(false, false), Signal(0, 0),
          1, NO_DEVICE, [], [], [], false, 0, RESET_LOG)
  }

  /** A run: a reset state and any number of steps, each allowed where it is taken. */
  ghost predicate Run(t: seq<State>, a: seq<Action>) {
    && |t| == |a| + 1
    && (exists devRom, peerRom :: t[0] == Reset(devRom, peerRom))
    && forall i | 0 <= i < |a| :: Enabled(t[i], a[i]) && t[i + 1] == Step(t[i], a[i])
  }
}
