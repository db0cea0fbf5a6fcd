/** What an enumeration learns, when it ends, and which addresses it hands out. */
module Enumeration {
  import opened Kernel
  import opened UsbTypes
  import opened Descriptors
  import opened Transport
  import opened TransportProps
  import opened HostMachine
  import opened HostProps

  predicate Enumerating(pc: Pc) { pc.SetupSent? || pc.StatusSent? || pc.Settling? || pc.EnumPulse? }

  /** When a control transfer's request goes out, counted from the start of the enumeration. */
  function RequestAt(r: Request): nat {
    match r
    case GetDevice => 0
    case SetAddress(_) => 7000
    case GetConfig => 2_014_000
    case GetBos => 2_021_000
    case SetConfig => 2_028_000
  }

  /** When a wait of the enumeration ends. */
  function Offset(pc: Pc): nat
    requires Enumerating(pc)
  {
    match pc
    case SetupSent(r, _) => RequestAt(r) + 5000
    case StatusSent(r, _, _) => RequestAt(r) + 7000
    case Settling(_) => 2_014_000
    case EnumPulse(_) => 2_035_010
  }

  /** The ids on record are the peer's if the first request was answered to the host, else still zero. */
  ghost predicate IdsOnRecord(s: State) {
    var d := s.net.peer.rom.dev;
    if s.log.begunAs == Host then
      s.info.vendorId == d.idVendor && s.info.productId == d.idProduct && s.info.numConfigs == d.bNumConfigurations
    else s.info.vendorId == 0 && s.info.productId == 0 && s.info.numConfigs == 0
  }

  predicate FirstRequest(pc: Pc) { (pc.SetupSent? || pc.StatusSent?) && pc.req.GetDevice? }

  ghost predicate Learning(s: State) {
    var pc := s.pc;
    && (pc.StatusSent? ==> pc.ok)
    && (Enumerating(pc) ==> pc.due == s.log.begunAt + Offset(pc))
    && (FirstRequest(pc) ==> s.info == NO_DEVICE)
    && (FirstRequest(pc) && pc.SetupSent? ==>
          && s.descBuf == []
          && (s.net.respValid <==> s.log.begunAs == Host)
          && (s.net.respValid ==> s.net.respData == DescriptorBytes(s.net.peer.rom.dev)))
    && (FirstRequest(pc) && pc.StatusSent? ==>
          s.descBuf == if s.log.begunAs == Host then DescriptorBytes(s.net.peer.rom.dev) else [])
    && (Enumerating(pc) && !FirstRequest(pc) ==> IdsOnRecord(s))
    && ((pc.SetupSent? || pc.StatusSent?) && pc.req.SetConfig? ==> s.net.peer.configured)
    && (pc.EnumPulse? || pc.AwaitRing? || pc.TrbPulse? ==> s.info.enumerated)
    && (s.info.enumerated ==> IdsOnRecord(s) && s.info.activeConfig == 1 && s.net.peer.configured)
    && (pc.Start? ==> s.info == NO_DEVICE)
    && (Enumerating(pc) && !pc.EnumPulse? ==> !s.info.enumerated)
  }

  lemma SendSetupLearns(s: State, r: Request)
    ensures var s' := SendSetup(s, r);
            && s'.net.peer.rom == s.net.peer.rom && s'.info == s.info && s'.descBuf == s.descBuf && s'.log == s.log
            && s'.net.peer.configured == (s.net.peer.configured || r.SetConfig?)
            && s'.pc == SetupSent(r, s.now + SETUP_NS)
            && (r.GetDevice? && !s.net.respValid ==>
                  && (s'.net.respValid <==> s.net.role == Host)
                  && (s'.net.respValid ==> s'.net.respData == DescriptorBytes(s.net.peer.rom.dev)))
  {
    var e := ControlExt(s, Setup, r).(setup := RequestPacket(r));
    ControlSend(s.net, HostSide, e, Packed(RequestPacket(r)));
    PeerFollowsRequests(s.net, HostSide, e, Packed(RequestPacket(r)));
    if r.GetDevice? {
      assert PeerReply(s.net.peer.rom, RequestPacket(r)) == DescriptorBytes(s.net.peer.rom.dev);
    }
    hide Sent;
    hide PeerReply;
  }

  lemma BeginLearns(s: State)
    requires !s.net.respValid
    ensures Learning(BeginEnumeration(s))
  {
    SendSetupLearns(Begun(s), GetDevice);
    hide SendSetup;
    hide DescriptorBytes;
  }

  lemma StatusLearns(s: State, r: Request)
    requires Learning(s) && s.pc.SetupSent? && s.pc.req == r && s.pc.due == s.now
    ensures Learning(SendStatus(Collected(s, r), r))
  {
    hide Sent;
    hide DescriptorBytes;
    var w := Collected(s, r);
    ControlSend(w.net, HostSide, ControlExt(w, CtrlStatus, r), [0]);
    PeerFollowsRequests(w.net, HostSide, ControlExt(w, CtrlStatus, r), [0]);
  }

  lemma AfterRequestLearns(s: State, r: Request)
    requires Learning(s) && s.pc.StatusSent? && s.pc.req == r && s.pc.due == s.now
    ensures Learning(AfterRequest(s, r, true))
  {
    match r {
      case GetDevice =>
        DescriptorRoundTrip(s.info, s.net.peer.rom.dev);
        assert ReadDeviceDescriptor(s.info, []) == s.info;
        SendSetupLearns(LearnIds(s), SetAddress(s.nextAddr));
      case SetAddress(_) =>
      case GetConfig => SendSetupLearns(LearnConfig(s), GetBos);
      case GetBos => SendSetupLearns(s, SetConfig);
      case SetConfig =>
    }
    hide SendSetup;
    hide DescriptorBytes;
    hide ReadDeviceDescriptor;
  }

  lemma RingLearns(s: State)
    requires s.info.enumerated && IdsOnRecord(s) && s.info.activeConfig == 1 && s.net.peer.configured
    ensures Learning(RingTop(s))
  {
    hide Sent;
    if s.enable.cur && s.ring != [] {
      PeerFollowsRequests(s.net, HostSide, TrbExt(s.ring[0]), TrbData(s.ring[0]));
    }
  }

  lemma RunLearns(s: State)
    requires Learning(s) && AnswersCollected(s) && Timely(s) && s.ready
    ensures Learning(Resume(s))
  {
    var w := Wake(s);
    WakeEffect(s);
    match s.pc {
      case Start | AwaitEnable => BeginLearns(w); hide BeginEnumeration;
      case SetupSent(r, _) => StatusLearns(s.(ready := false), r); hide SendStatus;
      case StatusSent(r, ok, _) => AfterRequestLearns(w, r); hide AfterRequest;
      case Settling(_) => SendSetupLearns(ConfigAsked(w), GetConfig); hide SendSetup;
      case EnumPulse(_) | AwaitRing | TrbPulse(_) => RingLearns(w); hide RingTop;
    }
  }

  lemma KeepsLearning(s: State, a: Action)
    requires Learning(s) && AnswersCollected(s) && Timely(s) && Enabled(s, a)
    ensures Learning(Step(s, a))
  {
    hide Resume;
    hide Copied;
    hide DescriptorBytes;
    if a.RunHost? { RunLearns(s); }
    if a.RunCopy? { CopyIsolation(s.net); }
  }

  // ----- addresses -----

  predicate Assigning(pc: Pc) { (pc.SetupSent? || pc.StatusSent?) && pc.req.SetAddress? }

  /** What the host and the peer hold once k Set Address requests have been sent. */
  function HostAddress(k: nat): byte { k % 256 }

  function PeerAddress(k: nat): byte { k % 128 }

  lemma NextAddress(k: nat)
    ensures (HostAddress(k) + 1) % 256 == HostAddress(k + 1)
  {}

  lemma SameAddress(k: nat)
    ensures PeerAddress(HostAddress(k)) == PeerAddress(k)
  {
    assert k == 128 * (2 * (k / 256)) + k % 256;
  }

  /** With k Set Address requests sent, everybody's view of the address. */
  ghost predicate Addressed(s: State) {
    var k := AddressesSent(s.net.wire);
    && s.nextAddr == HostAddress(k + 1)
    && s.net.peer.addr == PeerAddress(k)
    && (Assigning(s.pc) ==>
          k > 0 && s.pc.req.addr == HostAddress(k) && s.addrOut.next == HostAddress(k - 1) && s.info.addr == 0)
    && (!Assigning(s.pc) ==> s.addrOut.next == HostAddress(k) && (s.info.addr == 0 || s.info.addr == HostAddress(k)))
    && (s.pc.Settling? || s.info.enumerated || (Enumerating(s.pc) && !FirstRequest(s.pc) && !Assigning(s.pc)) ==>
          s.info.addr == HostAddress(k))
    && (s.pc.Start? ==> k == 0)
  }

  lemma SendSetupAddresses(s: State, r: Request)
    ensures var s' := SendSetup(s, r);
            && AddressesSent(s'.net.wire) == AddressesSent(s.net.wire) + (if r.SetAddress? then 1 else 0)
            && s'.net.peer.addr == (if r.SetAddress? then PeerAddress(r.addr) else s.net.peer.addr)
            && s'.info == s.info && s'.addrOut == s.addrOut && s'.nextAddr == s.nextAddr
            && s'.pc == SetupSent(r, s.now + SETUP_NS)
  {
    var e := ControlExt(s, Setup, r).(setup := RequestPacket(r));
    SendingCounts(s.net, HostSide, e, Packed(RequestPacket(r)));
    PeerFollowsRequests(s.net, HostSide, e, Packed(RequestPacket(r)));
    hide Sent;
  }

  /** Taking the next address and sending it keeps the count in step. */
  lemma AssignAddresses(s: State)
    requires Addressed(s) && FirstRequest(s.pc) && s.info == NO_DEVICE
    ensures Addressed(SendSetup(LearnIds(s), SetAddress(s.nextAddr)))
  {
    var k := AddressesSent(s.net.wire);
    NextAddress(k + 1);
    SameAddress(k + 1);
    SendSetupAddresses(LearnIds(s), SetAddress(s.nextAddr));
    hide SendSetup;
    hide AddressesSent;
    hide HostAddress;
    hide PeerAddress;
    hide ReadDeviceDescriptor;
  }

  /** Any other request leaves the count alone. */
  lemma RequestAddresses(s: State, r: Request)
    requires !r.SetAddress? && !s.info.enumerated
    requires var k := AddressesSent(s.net.wire);
             s.nextAddr == HostAddress(k + 1) && s.net.peer.addr == PeerAddress(k) && s.addrOut.next == HostAddress(k)
             && s.info.addr == if r.GetDevice? then 0 else HostAddress(k)
    ensures Addressed(SendSetup(s, r))
  {
    SendSetupAddresses(s, r);
    hide SendSetup;
    hide AddressesSent;
    hide HostAddress;
    hide PeerAddress;
  }

  lemma AfterRequestAddresses(s: State)
    requires Addressed(s) && Learning(s) && s.pc.StatusSent?
    ensures Addressed(AfterRequest(s, s.pc.req, true))
  {
    hide SendSetup;
    hide AddressesSent;
    hide HostAddress;
    hide PeerAddress;
    match s.pc.req {
      case GetDevice => AssignAddresses(s);
      case SetAddress(_) => hide IdsOnRecord;
      case GetConfig => RequestAddresses(LearnConfig(s), GetBos); hide Addressed;
      case GetBos => RequestAddresses(s, SetConfig); hide Addressed;
      case SetConfig =>
    }
  }

  lemma RingAddresses(s: State)
    requires Addressed(s) && Rings(s.pc)
    ensures Addressed(RingTop(s))
  {
    hide Sent;
    if s.enable.cur && s.ring != [] {
      SendingCounts(s.net, HostSide, TrbExt(s.ring[0]), TrbData(s.ring[0]));
      PeerFollowsRequests(s.net, HostSide, TrbExt(s.ring[0]), TrbData(s.ring[0]));
    }
  }

  lemma StatusAddresses(s: State)
    requires Addressed(s) && s.pc.SetupSent?
    ensures Addressed(SendStatus(s, s.pc.req))
  {
    var e := ControlExt(s, CtrlStatus, s.pc.req);
    SendingCounts(s.net, HostSide, e, [0]);
    PeerFollowsRequests(s.net, HostSide, e, [0]);
    assert SendStatus(s, s.pc.req).net == Sent(s.net, HostSide, e, [0]);
    hide Sent;
    hide ControlExt;
    hide AddressesSent;
    hide HostAddress;
    hide PeerAddress;
  }

  lemma WakeAddresses(s: State)
    requires Addressed(s)
    ensures Addressed(Wake(s)) && Wake(s).pc == s.pc && Wake(s).info == s.info
  {
    hide AddressesSent;
    hide PeerAddress;
    assert HostAddress(0) == 0;
    hide HostAddress;
  }

  lemma ContinueAddresses(s: State)
    requires Addressed(s) && (s.pc.StatusSent? ==> s.pc.ok && Learning(s)) && (s.pc.Settling? ==> !s.info.enumerated)
    ensures Addressed(Continue(s))
  {
    hide AddressesSent;
    hide HostAddress;
    hide PeerAddress;
    hide SendSetup;
    hide SendStatus;
    hide AfterRequest;
    hide RingTop;
    hide Learning;
    match s.pc {
      case Start | AwaitEnable => RequestAddresses(Begun(s), GetDevice);
      case SetupSent(_, _) => StatusAddresses(s);
      case StatusSent(_, _, _) => AfterRequestAddresses(s);
      case Settling(_) => RequestAddresses(ConfigAsked(s), GetConfig);
      case EnumPulse(_) | AwaitRing | TrbPulse(_) => RingAddresses(s);
    }
  }

  lemma RunAddresses(s: State)
    requires Addressed(s) && Learning(s) && s.ready
    ensures Addressed(Resume(s))
  {
    WakeAddresses(s);
    assert Learning(s.(ready := false));
    assert s.pc.Settling? ==> !s.info.enumerated;
    hide Addressed;
    hide IdsOnRecord;
    ContinueAddresses(Wake(s));
    hide Continue;
  }

  /** The kernel and the environment change no address. */
  lemma OtherAddresses(s: State, a: Action)
    requires Addressed(s) && Enabled(s, a) && !a.RunHost?
    ensures Addressed(Step(s, a))
  {
    hide Resume;
    hide Copied;
    hide AddressesSent;
    hide HostAddress;
    hide PeerAddress;
    if a.RunCopy? { CopyingCounts(s.net); CopyIsolation(s.net); }
  }

  lemma KeepsAddressed(s: State, a: Action)
    requires Addressed(s) && Learning(s) && Enabled(s, a)
    ensures Addressed(Step(s, a))
  {
    hide Resume;
    hide Learning;
    hide Addressed;
    if a.RunHost? { RunAddresses(s); } else { OtherAddresses(s, a); }
  }
}
