/** What the host side puts on the link, field by field and byte by byte, in every run. */
module HostWire {
  import opened Kernel
  import opened UsbTypes
  import opened Descriptors
  import opened Transport
  import opened TransportProps
  import opened LinkProps
  import opened HostMachine
  import opened HostProps
  import opened Enumeration
  import opened HostRuns

  // ----- the frames -----

  /** A setup frame of the host: to this address, endpoint 0, outward, with this setup data and the
      same on the wire. */
  predicate SetupFrame(f: Frame, addr: byte, s: SetupPkt, data: seq<byte>) {
    && f.from == HostSide && f.data == data && f.ext.Some?
    && f.ext.value.pktType == Setup && f.ext.value.devAddr == addr && f.ext.value.endpoint == 0
    && f.ext.value.direction == HostToDevice && f.ext.value.epType == Control && f.ext.value.code == Success
    && f.ext.value.setup == s
  }

  /** The frame of each request, with k addresses handed out before it. The first two go to address
      0, the others to the address on record. */
  predicate RequestFrame(f: Frame, r: Request, k: nat) {
    match r
    case GetDevice => SetupFrame(f, 0, SetupPkt(0x80, 6, 0x0100, 0, 18), [0x80, 6, 0, 1, 0, 0, 18, 0])
    case SetAddress(x) => x == (k + 1) % 256 && SetupFrame(f, 0, SetupPkt(0, 5, x, 0, 0), [0, 5, x, 0, 0, 0, 0, 0])
    case GetConfig => SetupFrame(f, k % 256, SetupPkt(0x80, 6, 0x0200, 0, 255), [0x80, 6, 0, 2, 0, 0, 255, 0])
    case GetBos => SetupFrame(f, k % 256, SetupPkt(0x80, 6, 0x0F00, 0, 255), [0x80, 6, 0, 15, 0, 0, 255, 0])
    case SetConfig => SetupFrame(f, k % 256, SetupPkt(0, 9, 1, 0, 0), [0, 9, 1, 0, 0, 0, 0, 0])
  }

  /** The frame that closes each: outward after a read, inward otherwise. */
  predicate StatusFrame(f: Frame, r: Request, k: nat) {
    match r
    case GetDevice => Carries(f, HostSide, CtrlStatus, 0, 0, HostToDevice, Control, [0])
    case SetAddress(_) => Carries(f, HostSide, CtrlStatus, 0, 0, DeviceToHost, Control, [0])
    case GetConfig | GetBos => Carries(f, HostSide, CtrlStatus, k % 256, 0, HostToDevice, Control, [0])
    case SetConfig => Carries(f, HostSide, CtrlStatus, k % 256, 0, DeviceToHost, Control, [0])
  }

  /** The frame that carries out a request of software. */
  predicate BulkFrame(f: Frame, x: Action) {
    match x
    case SubmitOut(addr, ep, data) => Carries(f, HostSide, BulkOut, addr, ep, HostToDevice, Bulk, data)
    case SubmitIn(addr, ep, len) =>
      && Carries(f, HostSide, BulkIn, addr, ep, DeviceToHost, Bulk, f.data)
      && |f.data| == len % 0x1_0000_0000 && forall b | b in f.data :: b == 0
    case _ => false
  }

  /** w' is w with exactly one more frame. */
  predicate OneMore(w: seq<Frame>, w': seq<Frame>) { |w'| == |w| + 1 && w'[..|w|] == w }

  // ----- control transfers -----

  lemma PackedRequest(r: Request)
    ensures Packed(RequestPacket(r)) ==
            match r
            case GetDevice => [0x80, 6, 0, 1, 0, 0, 18, 0]
            case SetAddress(x) => [0, 5, x, 0, 0, 0, 0, 0]
            case GetConfig => [0x80, 6, 0, 2, 0, 0, 255, 0]
            case GetBos => [0x80, 6, 0, 15, 0, 0, 255, 0]
            case SetConfig => [0, 9, 1, 0, 0, 0, 0, 0]
  {}

  /** The address a request goes to, with `addr` on record. */
  function Target(r: Request, addr: byte): byte { if r.GetDevice? || r.SetAddress? then 0 else addr }

  lemma SendSetupWire(s: State, r: Request)
    ensures var w, w' := s.net.wire, SendSetup(s, r).net.wire;
            && OneMore(w, w')
            && SetupFrame(w'[|w|], Target(r, s.info.addr), RequestPacket(r), Packed(RequestPacket(r)))
  {
    hide Sent;
    hide Packed;
    hide RequestPacket;
    SentWire(s.net, HostSide, ControlExt(s, Setup, r).(setup := RequestPacket(r)), Packed(RequestPacket(r)));
  }

  lemma SendStatusWire(s: State, r: Request)
    ensures var w, w' := s.net.wire, SendStatus(s, r).net.wire;
            && OneMore(w, w')
            && Carries(w'[|w|], HostSide, CtrlStatus, Target(r, s.info.addr), 0,
                       if r.SetAddress? || r.SetConfig? then DeviceToHost else HostToDevice, Control, [0])
  {
    hide Sent;
    SentWire(s.net, HostSide, ControlExt(s, CtrlStatus, r), [0]);
  }

  /** A run of the thread that comes to a setup wait has sent just that request. */
  lemma SetupStep(s: State)
    requires Resume(s).pc.SetupSent?
    ensures var s' := Resume(s);
            && OneMore(s.net.wire, s'.net.wire)
            && SetupFrame(s'.net.wire[|s.net.wire|], Target(s'.pc.req, s'.info.addr),
                          RequestPacket(s'.pc.req), Packed(RequestPacket(s'.pc.req)))
  {
    hide Sent;
    hide SetupFrame;
    hide OneMore;
    hide Packed;
    var w := Wake(s);
    match s.pc {
      case Start | AwaitEnable => SendSetupWire(Begun(w), GetDevice);
      case StatusSent(r, _, _) =>
        match r {
          case GetDevice => SendSetupWire(LearnIds(w), SetAddress(w.nextAddr));
          case GetConfig => SendSetupWire(LearnConfig(w), GetBos);
          case GetBos => SendSetupWire(w, SetConfig);
          case _ =>
        }
      case Settling(_) => SendSetupWire(ConfigAsked(w), GetConfig);
      case _ =>
    }
  }

  lemma StatusStep(s: State)
    requires Resume(s).pc.StatusSent?
    ensures var s' := Resume(s);
            && OneMore(s.net.wire, s'.net.wire)
            && Carries(s'.net.wire[|s.net.wire|], HostSide, CtrlStatus, Target(s'.pc.req, s'.info.addr), 0,
                       if s'.pc.req.SetAddress? || s'.pc.req.SetConfig? then DeviceToHost else HostToDevice,
                       Control, [0])
  {
    hide Sent;
    hide Carries;
    hide OneMore;
    hide RequestPacket;
    if s.pc.SetupSent? { SendStatusWire(Wake(s), s.pc.req); }
  }

  lemma AddressesGrow(w: seq<Frame>, w': seq<Frame>)
    requires OneMore(w, w')
    ensures AddressesSent(w') == AddressesSent(w) + if SetsAddress(w'[|w|].ext) then 1 else 0
  {
    assert w'[..|w'| - 1] == w;
  }

  /** A request reaches the link as one frame with every field as the request has it: the first
      read and Set Address to address 0, the others to the address last handed out. */
  lemma RequestOnWire(t: seq<State>, a: seq<Action>, i: nat)
    requires Run(t, a) && i < |a| && a[i] == RunHost
    requires |t| == |a| + 1 && t[i + 1].pc.SetupSent?
    ensures var w, w' := t[i].net.wire, t[i + 1].net.wire;
            OneMore(w, w') && RequestFrame(w'[|w|], t[i + 1].pc.req, AddressesSent(w))
  {
    hide Run;
    hide Resume;
    hide Packed;
    hide AddressesSent;
    RunStep(t, a, i);
    SetupStep(t[i]);
    var w, w', r := t[i].net.wire, t[i + 1].net.wire, t[i + 1].pc.req;
    PackedRequest(r);
    AddressesGrow(w, w');
    RecordAfter(t, a, i + 1);
    assert r.SetAddress? <==> SetsAddress(w'[|w|].ext);
  }

  /** What the host has on record while a request is out. */
  lemma RecordAfter(t: seq<State>, a: seq<Action>, i: nat)
    requires Run(t, a) && i < |t| && (t[i].pc.SetupSent? || t[i].pc.StatusSent?)
    ensures var r, k := t[i].pc.req, AddressesSent(t[i].net.wire);
            && (r.SetAddress? ==> k > 0 && r.addr == k % 256)
            && (!r.GetDevice? && !r.SetAddress? ==> t[i].info.addr == k % 256)
  {
    Always(t, a, i);
    assert Addressed(t[i]);
    hide Run;
    hide Inv;
    hide AddressesSent;
  }

  /** And it is closed by one status frame to the same address, inward after a write, outward after
      a read. */
  lemma StatusOnWire(t: seq<State>, a: seq<Action>, i: nat)
    requires Run(t, a) && i < |a| && a[i] == RunHost
    requires |t| == |a| + 1 && t[i + 1].pc.StatusSent?
    ensures var w, w' := t[i].net.wire, t[i + 1].net.wire;
            OneMore(w, w') && StatusFrame(w'[|w|], t[i + 1].pc.req, AddressesSent(w))
  {
    hide Run;
    hide Resume;
    hide AddressesSent;
    hide OneMore;
    RunStep(t, a, i);
    StatusStep(t[i]);
    AddressesGrow(t[i].net.wire, t[i + 1].net.wire);
    RecordAfter(t, a, i + 1);
  }

  // ----- transfers -----

  /** The frame of a transfer, and the one it may bounce off the device block. */
  predicate TransferFrames(n: Net, w': seq<Frame>, x: Action) {
    var w := n.wire;
    && |w| < |w'| <= |w| + 2 && w'[..|w|] == w && BulkFrame(w'[|w|], x)
    && (|w'| == |w| + 2 ==>
          && x.SubmitIn? && n.dev.ep1.hasData
          && Carries(w'[|w| + 1], DeviceSide, BulkIn, n.dev.addr, 1, DeviceToHost, Bulk, n.dev.ep1.buffer))
  }

  lemma ExecuteWire(s: State, x: Action)
    requires s.ring != [] && MadeFrom(s.ring[0], x)
    ensures TransferFrames(s.net, ExecuteHead(s).net.wire, x)
  {
    hide Sent;
    var e := TrbExt(s.ring[0]);
    SentWire(s.net, HostSide, e, TrbData(s.ring[0]));
    assert ExecuteHead(s).net.wire == Sent(s.net, HostSide, e, TrbData(s.ring[0])).wire;
    assert s.ring[0].direction == DeviceToHost ==> forall b | b in TrbData(s.ring[0]) :: b == 0;
  }

  lemma TransferStep(s: State, x: Action)
    requires Resume(s).log.executed != s.log.executed && s.ring != [] && MadeFrom(s.ring[0], x)
    ensures TransferFrames(s.net, Resume(s).net.wire, x)
  {
    hide Continue;
    hide ExecuteHead;
    hide TransferFrames;
    hide MadeFrom;
    var w := Wake(s);
    WakeEffect(s);
    ContinueBulk(w);
    ExecuteWire(w, x);
    assert w.net.wire == s.net.wire && w.net.dev == s.net.dev;
    SameFrames(w.net, s.net, ExecuteHead(w).net.wire, x);
  }

  lemma SameFrames(n: Net, m: Net, w: seq<Frame>, x: Action)
    requires n.wire == m.wire && n.dev == m.dev
    ensures TransferFrames(n, w, x) == TransferFrames(m, w, x)
  {}

  /** The k-th transfer to run puts the k-th request of software on the link: its data, or that many
      zeros, to its device and endpoint; nothing else, but for what it may bounce off the device. */
  lemma TransferOnWire(t: seq<State>, a: seq<Action>, i: nat)
    requires Run(t, a) && i < |a| && |t| == |a| + 1 && t[i + 1].log.executed != t[i].log.executed
    ensures |t[i].log.executed| < |Requests(a[..i])|
    ensures TransferFrames(t[i].net, t[i + 1].net.wire, Requests(a[..i])[|t[i].log.executed|])
  {
    hide Run;
    hide Resume;
    hide TransferFrames;
    hide MadeFrom;
    hide Requests;
    RunStep(t, a, i);
    TransfersRunEnabled(t, a, i);
    TransfersConserved(t, a, i);
    var k := |t[i].log.executed|;
    assert (Trbs(t[i].log.executed) + t[i].ring)[k] == t[i].ring[0];
    TransferStep(t[i], Requests(a[..i])[k]);
  }

  // ----- nothing else -----

  lemma SetupWaits(s: State, r: Request)
    ensures SendSetup(s, r).pc.SetupSent?
  {
    hide Sent;
  }

  lemma ExecuteWaits(s: State)
    requires s.ring != []
    ensures ExecuteHead(s).pc.TrbPulse?
  {
    hide Sent;
  }

  lemma SilentRing(s: State)
    requires !RingTop(s).pc.TrbPulse?
    ensures RingTop(s).net == s.net
  {
    hide ExecuteHead;
    if s.enable.cur && s.ring != [] { ExecuteWaits(s); }
  }

  lemma SilentRequest(s: State, r: Request, ok: bool)
    requires var pc := AfterRequest(s, r, ok).pc; !pc.SetupSent? && !pc.TrbPulse?
    ensures AfterRequest(s, r, ok).net == s.net
  {
    hide SendSetup;
    hide RingTop;
    if !ok && !r.GetBos? {
      SilentRing(s);
    } else {
      match r {
        case GetDevice => SetupWaits(LearnIds(s), SetAddress(s.nextAddr));
        case GetConfig => SetupWaits(LearnConfig(s), GetBos);
        case GetBos => SetupWaits(s, SetConfig);
        case _ =>
      }
    }
  }

  lemma SilentStep(s: State)
    requires var pc := Resume(s).pc; !pc.SetupSent? && !pc.StatusSent? && !pc.TrbPulse?
    ensures Resume(s).net.wire == s.net.wire
  {
    hide SendSetup;
    hide RingTop;
    hide AfterRequest;
    hide Sent;
    var w := Wake(s);
    match s.pc {
      case Start | AwaitEnable => SetupWaits(Begun(w), GetDevice);
      case StatusSent(r, ok, _) => SilentRequest(w, r, ok);
      case Settling(_) => SetupWaits(ConfigAsked(w), GetConfig);
      case EnumPulse(_) | AwaitRing | TrbPulse(_) => SilentRing(w);
      case SetupSent(_, _) =>
    }
  }

  /** The host puts nothing else on the link, and the copy thread only its announcement. */
  lemma NothingElseOnWire(t: seq<State>, a: seq<Action>, i: nat)
    requires Run(t, a) && i < |a| && |t| == |a| + 1
    requires var pc := t[i + 1].pc;
             a[i] == RunHost ==> !pc.SetupSent? && !pc.StatusSent? && !pc.TrbPulse?
    ensures var w, w' := t[i].net.wire, t[i + 1].net.wire;
            if a[i] == RunCopy && t[i].net.dev.configured && t[i].net.dev.ep2.hasData then
              OneMore(w, w')
              && Carries(w'[|w|], DeviceSide, TpErdy, t[i].net.dev.addr, 1, DeviceToHost, Control, [1, 0, 0, 0])
            else w' == w
  {
    hide Run;
    hide Resume;
    hide Copied;
    RunStep(t, a, i);
    if a[i].RunHost? { SilentStep(t[i]); }
    if a[i].RunCopy? { CopyWire(t[i].net); }
  }
}
