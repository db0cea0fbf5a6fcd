/** The blocks as objects: fields updated in place, one method per function of the design, and
    the sockets as calls from one block into the next.

    A send by a controller runs through the router into the peer, whose answer runs back
    through the router into a controller, which may send again, all before the first call
    returns. The transport methods below are mutually recursive in just that way. That they
    terminate is checked by their `decreases` clauses: the pair of whether EP1 holds data and
    how much a packet can still provoke, then the stage of the call chain. */
module Platform {
  import opened Kernel
  import opened UsbTypes
  import opened Descriptors
  import opened Transport
  import opened HostMachine
  import Loopback
  import HP = HostProps
  import HR = HostRuns
  import LR = LoopbackRuns
  import LW = LoopbackWire

  class EpFifo {
    var buffer: seq<byte>
    var hasData: bool

    constructor ()
      ensures Value() == EMPTY_FIFO
    {
      buffer, hasData := [], false;
    }

    ghost function Value(): Fifo
      reads this
    {
      Fifo(buffer, hasData)
    }

    method Write(data: seq<byte>)
      modifies this
      ensures Value() == Fifo(data, true)
    {
      buffer := data;
      hasData := true;
    }

    method Read() returns (out: Option<seq<byte>>)
      modifies this
      ensures out == if old(hasData) then Some(old(buffer)) else None
      ensures Value() == if old(hasData) then EMPTY_FIFO else old(Value())
    {
      if !hasData { return None; }
      out := Some(buffer);
      buffer := [];
      hasData := false;
    }
  }

  class DeviceController {
    const rom: Rom
    const ep1: EpFifo
    const ep2: EpFifo
    var configured: bool
    var configuredOut: bool
    var addr: byte
    var outPending: bool
    ghost var accepted: seq<seq<byte>>
    ghost var delivered: seq<seq<byte>>
    ghost var lost: nat

    constructor (rom: Rom)
      ensures Valid() && fresh(ep1) && fresh(ep2) && this.rom == rom
      ensures State() == DeviceState(rom, false, false, 0, EMPTY_FIFO, EMPTY_FIFO, false, [], [], 0)
    {
      this.rom := rom;
      ep1 := new EpFifo();
      ep2 := new EpFifo();
      configured, configuredOut, addr, outPending := false, false, 0, false;
      accepted, delivered, lost := [], [], 0;
    }

    ghost predicate Valid() { ep1 != ep2 }

    ghost function State(): DeviceState
      reads this, ep1, ep2
    {
      DeviceState(rom, configured, configuredOut, addr, ep1.Value(), ep2.Value(), outPending,
                  accepted, delivered, lost)
    }

    method HandleBulkOut(data: seq<byte>)
      requires Valid()
      modifies this, ep2
      ensures State() == OutLanded(old(State()), data)
    {
      lost := lost + if ep2.hasData then 1 else 0;
      accepted := accepted + [data];
      ep2.Write(data);
      outPending := true;
    }

    method TakeIn() returns (data: Option<seq<byte>>)
      requires Valid()
      modifies this`delivered, ep1
      ensures data == if old(ep1.hasData) then Some(old(ep1.buffer)) else None
      ensures State() == if old(ep1.hasData) then InTaken(old(State())) else old(State())
    {
      data := ep1.Read();
      if data.Some? { delivered := delivered + [data.value]; }
    }

    /** Moves a waiting payload from EP2 to EP1, if the device is configured. */
    method CopyOutToIn() returns (copied: bool)
      requires Valid()
      modifies this`lost, ep1, ep2
      ensures copied == old(configured && ep2.hasData)
      ensures !copied ==> State() == old(State())
      ensures copied ==>
                var d := old(State());
                State() == d.(ep1 := Fifo(d.ep2.buffer, true), ep2 := EMPTY_FIFO,
                              lost := d.lost + if d.ep1.hasData then 1 else 0)
    {
      copied := false;
      if configured {
        var data := ep2.Read();
        if data.Some? {
          lost := lost + if ep1.hasData then 1 else 0;
          ep1.Write(data.value);
          copied := true;
        }
      }
    }
  }

  class PeerDevice {
    const rom: Rom
    var addr: byte
    var configured: bool
    var slot: seq<byte>

    constructor (rom: Rom)
      ensures this.rom == rom && State() == PeerState(rom, 0, false, [])
    {
      this.rom := rom;
      addr, configured, slot := 0, false, [];
    }

    ghost function State(): PeerState
      reads this
    {
      PeerState(rom, addr, configured, slot)
    }
  }

  class ProtocolLayer {
    var seqNum: uint32
    ghost var wire: seq<Frame>

    constructor ()
      ensures seqNum == 0 && wire == []
    {
      seqNum, wire := 0, [];
    }

    method NextSeq() returns (n: uint32)
      modifies this`seqNum
      ensures n == old(seqNum) && seqNum == (old(seqNum) + 1) % TWO32
    {
      n := seqNum;
      seqNum := (seqNum + 1) % TWO32;
    }
  }

  /** A bounded queue of transfers. */
  class TransferRing {
    var queue: seq<Trb>

    constructor ()
      ensures queue == []
    {
      queue := [];
    }

    method Enqueue(t: Trb)
      requires |queue| < RING_DEPTH
      modifies this
      ensures queue == old(queue) + [t]
    {
      queue := queue + [t];
    }

    method Dequeue() returns (t: Trb)
      requires queue != []
      modifies this
      ensures old(queue) == [t] + queue
    {
      t := queue[0];
      queue := queue[1..];
    }
  }

  class HostController {
    const ring: TransferRing
    var respData: seq<byte>
    var respValid: bool
    var nextAddr: byte
    var info: DeviceInfo
    var descBuf: seq<byte>
    var rxBuf: seq<byte>
    var ringEvent: bool
    var pc: Pc
    var ready: bool
    var xferDone: Signal<bool>
    var enumDone: Signal<bool>
    var addrOut: Signal<byte>
    ghost var log: Log

    constructor ()
      ensures fresh(ring) && ring.queue == [] && respData == [] && !respValid && nextAddr == 1 && info == NO_DEVICE
      ensures descBuf == [] && rxBuf == [] && !ringEvent && pc == Start && ready && log == RESET_LOG
      ensures xferDone == enumDone == Signal(false, false) && addrOut == Signal(0, 0)
    {
      ring := new TransferRing();
      respData, respValid, nextAddr, info := [], false, 1, NO_DEVICE;
      descBuf, rxBuf, ringEvent, pc, ready := [], [], false, Start, true;
      xferDone, enumDone, addrOut := Signal(false, false), Signal(false, false), Signal(0, 0);
      log := RESET_LOG;
    }

    /** A packet from the router: its payload, if any, is kept for the thread. */
    method FromProtocol(p: Packet)
      modifies `respData, `respValid
      ensures if p.data == [] then respData == old(respData) && respValid == old(respValid)
              else respData == p.data && respValid
    {
      if |p.data| > 0 {
        respData := p.data;
        respValid := true;
      }
    }
  }

  /** How much an inbound packet can still make the device send. */
  function InRank(p: Packet): nat {
    match p.ext
    case Some(e) => if e.pktType == Setup || e.pktType == CtrlStatus || e.pktType == BulkIn then 1 else 0
    case None => 0
  }

  /** How much an outbound packet can still provoke. */
  function OutRank(p: Packet): nat {
    if p.ext.Some? && (p.ext.value.pktType == Setup || p.ext.value.pktType == BulkIn) then 2 else 0
  }

  /** The blocks wired together, with the peer on the link. */
  class Board {
    const host: HostController
    const protocol: ProtocolLayer
    const device: DeviceController
    const peer: PeerDevice
    var role: Role
    var devEnable: bool
    var hostEnable: Signal<bool>
    var now: nat

    // the device's copy thread
    var copyPc: Loopback.Pc
    var copyReady: bool
    var bulkIrq: Signal<bool>

    constructor (devRom: Rom, peerRom: Rom)
      ensures Valid() && State() == Reset(devRom, peerRom) && LoopState() == Loopback.Reset(devRom, peerRom)
    {
      host := new HostController();
      protocol := new ProtocolLayer();
      device := new DeviceController(devRom);
      peer := new PeerDevice(peerRom);
      role, devEnable, hostEnable, now := RoleNone, false, Signal(false, false), 0;
      copyPc, copyReady, bulkIrq := Loopback.AwaitOut, false, Signal(false, false);
    }

    ghost predicate Valid() { device.Valid() }

    ghost function Net(): Net
      reads this`role, this`devEnable, host`respData, host`respValid, protocol, device, device.ep1, device.ep2, peer
    {
      Transport.Net(role, devEnable, protocol.seqNum, protocol.wire, host.respData, host.respValid,
                    device.State(), peer.State())
    }

    ghost function State(): State
      reads this, host, host.ring, protocol, device, device.ep1, device.ep2, peer
    {
      HostMachine.State(Net(), host.pc, host.ready, hostEnable, host.xferDone, host.enumDone, host.addrOut,
                        host.nextAddr, host.info, host.descBuf, host.rxBuf, host.ring.queue, host.ringEvent,
                        now, host.log)
    }

    ghost function LoopState(): Loopback.State
      reads this, host, protocol, device, device.ep1, device.ep2, peer
    {
      Loopback.State(Net(), copyPc, copyReady, bulkIrq, now)
    }

    ghost function Ep1Full(): nat
      reads device.ep1
    {
      if device.ep1.hasData then 1 else 0
    }

    // ----- the transport calls -----

    /** A controller's packet goes out: numbered if its kind is, then over the link. */
    method RouteTx(ghost from: Sender, p: Packet) returns (response: Response)
      requires Valid()
      modifies host`respData, host`respValid, protocol, device, device.ep1, device.ep2, peer
      ensures Net() == if p.ext.Some? then Sent(old(Net()), from, p.ext.value, p.data)
                       else SentBare(old(Net()), from, p.data)
      ensures response == Ok
      decreases Ep1Full(), OutRank(p), 6
    {
      if p.ext.None? {
        protocol.wire := protocol.wire + [Frame(from, None, p.data)];
        response := PeerTransport(Packet(Some(DEFAULT_EXT), p.data));
        return;
      }
      var e := p.ext.value;
      if UsesSequence(e.pktType) {
        var n := protocol.NextSeq();
        e := e.(seqNum := n);
      }
      protocol.wire := protocol.wire + [Frame(from, Some(e), p.data)];
      assert (Net(), e) == Routed(old(Net()), from, p.ext.value, p.data);
      response := PeerTransport(Packet(Some(e), p.data));
    }

    method PeerTransport(p: Packet) returns (response: Response)
      requires Valid()
      modifies host`respData, host`respValid, protocol, device, device.ep1, device.ep2, peer
      ensures Net() == if p.ext.Some? then PeerGot(old(Net()), p.ext.value, p.data) else old(Net())
      ensures response == if p.ext.Some? then Ok else GenericError
      decreases Ep1Full(), OutRank(p), 5
    {
      if p.ext.None? { return GenericError; }
      var e := p.ext.value;
      match e.pktType {
        case Setup => PeerHandleSetup(e.setup);
        case BulkOut => peer.slot := p.data;
        case BulkIn =>
          if peer.slot != [] {
            var reply := Packet(Some(MakeExt(BulkIn, peer.addr, e.endpoint, DeviceToHost, Bulk)), peer.slot);
            var _ := Upstream(reply);
            peer.slot := [];
          }
        case _ =>
      }
      response := Ok;
    }

    method PeerHandleSetup(s: SetupPkt)
      requires Valid()
      modifies host`respData, host`respValid, protocol, device, device.ep1, device.ep2, peer
      ensures Net() == PeerSetup(old(Net()), s)
      decreases Ep1Full(), 2, 4
    {
      if s.bRequest == REQ_GET_DESCRIPTOR {
        var kind := s.wValue / 256;
        var reply := [];
        if kind == DESC_DEVICE { reply := DescriptorBytes(peer.rom.dev); }
        else if kind == DESC_CONFIGURATION { reply := peer.rom.cfg; }
        else if kind == DESC_BOS { reply := peer.rom.bos; }
        if |reply| > s.wLength { reply := reply[..s.wLength]; }
        if reply != [] {
          var _ := Upstream(Packet(Some(MakeExt(CtrlData, peer.addr, 0, DeviceToHost, Bulk)), reply));
        }
      } else if s.bRequest == REQ_SET_ADDRESS {
        peer.addr := s.wValue % 128;
      } else if s.bRequest == REQ_SET_CONFIGURATION {
        peer.configured := true;
      }
    }

    /** A packet arrives from the link. Handshakes stop here, a stall is marked and passed on. */
    method Upstream(p: Packet) returns (response: Response)
      requires Valid()
      modifies host`respData, host`respValid, protocol, device, device.ep1, device.ep2, peer
      ensures Net() == Received(old(Net()), p)
      ensures response == ReceiveResponse(old(Net()), p)
      decreases Ep1Full(), InRank(p), 3
    {
      if p.ext.None? {
        response := ForwardToActive(p);
        return;
      }
      match p.ext.value.pktType {
        case TpAck | TpNrdy | TpErdy => response := Incomplete;
        case TpStall => response := ForwardToActive(Packet(Some(p.ext.value.(code := StallErr)), p.data));
        case _ => response := ForwardToActive(p);
      }
    }

    method ForwardToActive(p: Packet) returns (response: Response)
      requires Valid()
      modifies host`respData, host`respValid, protocol, device, device.ep1, device.ep2, peer
      ensures Net() == Forwarded(old(Net()), p)
      ensures response == ForwardResponse(old(Net()), p)
      decreases Ep1Full(), InRank(p), 2
    {
      response := Incomplete;
      match role {
        case Host => host.FromProtocol(p);
        case Device => response := DeviceFromProto(p);
        case RoleNone =>
      }
    }

    /** The device block takes a packet; the router calls this in the device role only. */
    method DeviceFromProto(p: Packet) returns (response: Response)
      requires Valid() && role == Device
      modifies host`respData, host`respValid, protocol, device, device.ep1, device.ep2, peer
      ensures Net() == DeviceGot(old(Net()), p)
      ensures response == DeviceResponse(old(Net()), p)
      decreases Ep1Full(), InRank(p), 1
    {
      if !devEnable || p.ext.None? { return GenericError; }
      response := Ok;
      match p.ext.value.pktType {
        case Setup => response := DeviceHandleSetup(p.ext.value.setup);
        case BulkOut | CtrlData => device.HandleBulkOut(p.data);
        case CtrlStatus => SendToProtocol(CtrlStatus, 0, [0], Control);
        case BulkIn => DeviceBulkIn();
        case _ => response := GenericError;
      }
    }

    /** A full EP1 is emptied onto the wire; the peer's echo of that finds it empty. */
    method DeviceBulkIn()
      requires Valid() && role == Device && devEnable
      modifies host`respData, host`respValid, protocol, device, device.ep1, device.ep2, peer
      ensures var n := old(Net());
              Net() == if n.dev.ep1.hasData then DeviceHandsOn(n) else n
      decreases Ep1Full(), 1, 0
    {
      var data := device.TakeIn();
      if data.Some? { SendToProtocol(BulkIn, 1, data.value, Bulk); }
    }

    method DeviceHandleSetup(s: SetupPkt) returns (response: Response)
      requires Valid() && role == Device
      modifies host`respData, host`respValid, protocol, device, device.ep1, device.ep2, peer
      ensures Net() == DeviceSetup(old(Net()), s)
      ensures response == DeviceSetupResponse(old(Net()), s)
      decreases Ep1Full(), 1, 0
    {
      response := Ok;
      if s.bRequest == REQ_GET_DESCRIPTOR {
        var reply := DeviceDescriptorReply(device.rom, s);
        if reply.Some? {
          SendToProtocol(CtrlData, 0, reply.value, Control);
        } else {
          SendToProtocol(TpStall, 0, [0, 0, 0, 0], Control);
          response := GenericError;
        }
      } else if s.bRequest == REQ_SET_ADDRESS {
        device.addr := s.wValue % 128;
      } else if s.bRequest == REQ_SET_CONFIGURATION {
        device.configured := true;
        device.configuredOut := true;
      } else if s.bRequest == REQ_GET_STATUS {
        SendToProtocol(CtrlData, 0, [0, 0], Control);
      } else {
        SendToProtocol(TpStall, 0, [0, 0, 0, 0], Control);
        response := GenericError;
      }
    }

    /** The device block's own sends. */
    method SendToProtocol(kind: PktType, endpoint: byte, data: seq<byte>, epType: EpType)
      requires Valid()
      modifies host`respData, host`respValid, protocol, device, device.ep1, device.ep2, peer
      ensures Net() == Sent(old(Net()), DeviceSide, DeviceExt(old(Net()), kind, endpoint, epType), data)
      decreases Ep1Full(), if kind == Setup || kind == BulkIn then 2 else 0, 7
    {
      var _ := RouteTx(DeviceSide, Packet(Some(MakeExt(kind, device.addr, endpoint, DeviceToHost, epType)), data));
    }

    // ----- the host thread -----

    method CtrlSetup(r: Request)
      requires Valid()
      modifies host, protocol, device, device.ep1, device.ep2, peer
      ensures State() == SendSetup(old(State()), r)
    {
      hide Sent;
      hide Packed;
      hide Net;
      hide ControlTo;
      hide RequestPacket;
      var raw := PackSetupPacket(RequestPacket(r));
      var e := ControlTo(host.info.addr, Setup, r).(setup := RequestPacket(r));
      var _ := RouteTx(HostSide, Packet(Some(e), raw[..]));
      host.pc := SetupSent(r, now + SETUP_NS);
    }

    /** A read request's answer was stored by the router before the send returned. */
    method CtrlCollect(r: Request)
      requires Valid()
      modifies host
      ensures State() == Collected(old(State()), r)
    {
      if Reads(r) && host.respValid {
        if !r.GetBos? { host.descBuf := host.respData; }
        host.respData := [];
        host.respValid := false;
      }
    }

    method CtrlFinish(r: Request)
      requires Valid()
      modifies host, protocol, device, device.ep1, device.ep2, peer
      ensures State() == SendStatus(old(State()), r)
    {
      hide Sent;
      hide Net;
      hide ControlTo;
      var response := RouteTx(HostSide, Packet(Some(ControlTo(host.info.addr, CtrlStatus, r)), [0]));
      host.pc := StatusSent(r, response == Ok, now + STATUS_NS);
    }

    method ForgetDevice()
      requires Valid()
      modifies host
      ensures State() == Begun(old(State()))
    {
      assert Net().role == role;
      hide Net;
      host.info := NO_DEVICE;
      host.descBuf := [];
      host.log := host.log.(begunAs := role, begunAt := now);
    }

    method EnumerateDevice()
      requires Valid()
      modifies host, protocol, device, device.ep1, device.ep2, peer
      ensures State() == BeginEnumeration(old(State()))
    {
      hide Net;
      hide State;
      hide SendSetup;
      hide Begun;
      ForgetDevice();
      CtrlSetup(GetDevice);
    }

    method ReadConfig()
      requires Valid()
      modifies host, protocol, device, device.ep1, device.ep2, peer
      ensures State() == SendSetup(ConfigAsked(old(State())), GetConfig)
    {
      hide SendSetup;
      assert Net().role == role;
      hide Net;
      host.log := host.log.(configAs := role);
      CtrlSetup(GetConfig);
    }

    method MainLoop()
      requires Valid()
      modifies host, protocol, device, device.ep1, device.ep2, peer
      ensures State() == LoopTop(old(State()))
    {
      hide Net;
      hide BeginEnumeration;
      if !hostEnable.cur {
        host.pc := AwaitEnable;
      } else {
        EnumerateDevice();
      }
    }

    method TakeInAnswer(t: Trb)
      requires Valid()
      modifies host
      ensures State() == InCollected(old(State()), t)
    {
      if t.direction == DeviceToHost && host.respValid {
        host.rxBuf := host.respData;
        host.respData := [];
        host.respValid := false;
      }
    }

    /** The oldest transfer leaves the ring and goes on record. */
    method TakeHead() returns (t: Trb)
      requires Valid() && host.ring.queue != []
      modifies host`log, host.ring
      ensures var s := old(State());
              && t == s.ring[0]
              && State() == s.(ring := s.ring[1..],
                               log := s.log.(executed := s.log.executed + [Execution(t, s.net.role)],
                                             starts := s.log.starts + [s.log.tick]))
    {
      assert Net().role == role;
      hide Net;
      t := host.ring.Dequeue();
      host.log := host.log.(executed := host.log.executed + [Execution(t, role)],
                            starts := host.log.starts + [host.log.tick]);
    }

    method StartPulse()
      requires Valid()
      modifies host`xferDone, host`pc
      ensures var s := old(State());
              State() == s.(xferDone := s.xferDone.Write(true), pc := TrbPulse(s.now + XFER_PULSE_NS))
    {
      hide Net;
      host.xferDone := host.xferDone.Write(true);
      host.pc := TrbPulse(now + XFER_PULSE_NS);
    }

    method RunTrb()
      requires Valid() && host.ring.queue != []
      modifies host, host.ring, protocol, device, device.ep1, device.ep2, peer
      ensures State() == ExecuteHead(old(State()))
    {
      hide Net;
      hide Sent;
      hide InCollected;
      var t := TakeHead();
      var e := MakeExt(if t.direction == HostToDevice then BulkOut else BulkIn,
                       t.devAddr, t.endpoint, t.direction, Bulk);
      var buf := if t.direction == HostToDevice then t.payload else seq(t.length, _ => 0);
      var _ := RouteTx(HostSide, Packet(Some(e), buf));
      TakeInAnswer(t);
      StartPulse();
    }

    method ProcessTransferRing()
      requires Valid()
      modifies host, host.ring, protocol, device, device.ep1, device.ep2, peer
      ensures State() == RingTop(old(State()))
    {
      hide Net;
      hide ExecuteHead;
      if !hostEnable.cur {
        MainLoop();
      } else if host.ring.queue == [] {
        host.pc := AwaitRing;
      } else {
        RunTrb();
      }
    }

    method RecordIds() returns (next: byte)
      requires Valid()
      modifies host`info, host`nextAddr
      ensures next == old(host.nextAddr) && State() == LearnIds(old(State()))
    {
      hide Net;
      if |host.descBuf| >= 18 {
        var b := host.descBuf;
        host.info :=
          host.info.(vendorId := FromLe(b[8], b[9]), productId := FromLe(b[10], b[11]), numConfigs := b[17]);
      }
      next := host.nextAddr;
      host.nextAddr := (host.nextAddr + 1) % 256;
    }

    method RequestDone(r: Request, ok: bool)
      requires Valid()
      modifies host, host.ring, protocol, device, device.ep1, device.ep2, peer
      ensures State() == AfterRequest(old(State()), r, ok)
    {
      hide SendSetup;
      hide RingTop;
      hide Net;
      hide LearnIds;
      if !ok && !r.GetBos? {
        ProcessTransferRing();
        return;
      }
      match r {
        case GetDevice =>
          var next := RecordIds();
          CtrlSetup(SetAddress(next));
        case SetAddress(a) => RecordAddress(a);
        case GetConfig =>
          if |host.descBuf| >= 9 { host.info := host.info.(activeConfig := host.descBuf[5]); }
          CtrlSetup(GetBos);
        case GetBos => CtrlSetup(SetConfig);
        case SetConfig =>
          host.info := host.info.(activeConfig := 1, enumerated := true);
          host.enumDone := host.enumDone.Write(true);
          host.pc := EnumPulse(now + ENUM_PULSE_NS);
      }
    }

    method RecordAddress(a: byte)
      requires Valid()
      modifies host`info, host`addrOut, host`pc
      ensures var s := old(State());
              State() == s.(info := s.info.(addr := a), addrOut := s.addrOut.Write(a),
                            pc := Settling(s.now + SETTLE_NS))
    {
      hide Net;
      host.info := host.info.(addr := a);
      host.addrOut := host.addrOut.Write(a);
      host.pc := Settling(now + SETTLE_NS);
    }

    method ClearOutputs()
      requires Valid()
      modifies host`xferDone, host`enumDone, host`addrOut
      ensures var s := old(State());
              State() == s.(xferDone := s.xferDone.Write(false), enumDone := s.enumDone.Write(false),
                            addrOut := s.addrOut.Write(0))
    {
      hide Net;
      host.xferDone, host.enumDone := host.xferDone.Write(false), host.enumDone.Write(false);
      host.addrOut := host.addrOut.Write(0);
    }

    method EndPulse()
      requires Valid()
      modifies host`xferDone, host`log
      ensures var s := old(State());
              State() == s.(xferDone := s.xferDone.Write(false), log := s.log.(ends := s.log.ends + [s.log.tick]))
    {
      hide Net;
      host.xferDone := host.xferDone.Write(false);
      host.log := host.log.(ends := host.log.ends + [host.log.tick]);
    }

    /** What the thread does on leaving the wait it is in. */
    method LeaveWait()
      requires Valid()
      modifies host
      ensures State() == Wake(old(State()))
    {
      hide Net;
      hide Collected;
      host.ready := false;
      match host.pc {
        case Start => ClearOutputs();
        case SetupSent(r, _) => CtrlCollect(r);
        case EnumPulse(_) => host.enumDone := host.enumDone.Write(false);
        case TrbPulse(_) => EndPulse();
        case _ =>
      }
    }

    /** The thread leaves the wait it is in and runs to its next one. */
    method ResumeHost()
      requires Valid()
      modifies host, host.ring, protocol, device, device.ep1, device.ep2, peer
      ensures State() == Resume(old(State()))
    {
      hide Net;
      hide Wake;
      hide SendSetup;
      hide SendStatus;
      hide RingTop;
      hide AfterRequest;
      hide LoopTop;
      hide BeginEnumeration;
      LeaveWait();
      match host.pc {
        case Start => MainLoop();
        case AwaitEnable => EnumerateDevice();
        case SetupSent(r, _) => CtrlFinish(r);
        case StatusSent(r, ok, _) => RequestDone(r, ok);
        case Settling(_) => ReadConfig();
        case EnumPulse(_) | AwaitRing | TrbPulse(_) => ProcessTransferRing();
      }
    }

    method EnqueueBulkTrb(devAddr: byte, endpoint: byte, direction: Direction, len: nat, payload: seq<byte>)
      requires Valid() && |host.ring.queue| < RING_DEPTH
      modifies host, host.ring
      ensures State() == Enqueued(old(State()), Trb(payload, len % 0x1_0000_0000, devAddr, endpoint, direction))
    {
      var t := Trb(payload, len % TWO32, devAddr, endpoint, direction);
      host.ring.Enqueue(t);
      host.ringEvent := true;
      host.log := host.log.(enqueued := host.log.enqueued + [t]);
    }

    /** Queues a bulk OUT of the data, whole. */
    method QueueOut(devAddr: byte, endpoint: byte, data: seq<byte>)
      requires Valid() && |host.ring.queue| < RING_DEPTH
      modifies host, host.ring
      ensures State() == Enqueued(old(State()), OutTrb(devAddr, endpoint, data))
      ensures var q := host.ring.queue;
              q != [] && q[..|q| - 1] == old(host.ring.queue)
              && HR.MadeFrom(q[|q| - 1], SubmitOut(devAddr, endpoint, data))
    {
      hide Net;
      EnqueueBulkTrb(devAddr, endpoint, HostToDevice, |data|, data);
    }

    /** Queues a bulk IN of that many bytes. */
    method QueueIn(devAddr: byte, endpoint: byte, len: nat)
      requires Valid() && |host.ring.queue| < RING_DEPTH
      modifies host, host.ring
      ensures State() == Enqueued(old(State()), InTrb(devAddr, endpoint, len))
      ensures var q := host.ring.queue;
              q != [] && q[..|q| - 1] == old(host.ring.queue)
              && HR.MadeFrom(q[|q| - 1], SubmitIn(devAddr, endpoint, len))
    {
      hide Net;
      EnqueueBulkTrb(devAddr, endpoint, DeviceToHost, len, []);
    }

    // ----- the copy thread -----

    method CopyOnce() returns (copied: bool)
      requires Valid()
      modifies host`respData, host`respValid, protocol, device, device.ep1, device.ep2, peer
      ensures copied == Copies(old(Net())) && Net() == Copied(old(Net()))
    {
      copied := device.CopyOutToIn();
      if copied {
        SendToProtocol(TpErdy, 1, [1, 0, 0, 0], Control);
      }
    }

    method ResumeCopy()
      requires Valid()
      modifies this`copyPc, this`copyReady, this`bulkIrq
      modifies host`respData, host`respValid, protocol, device, device.ep1, device.ep2, peer
      ensures LoopState() == Loopback.CopyRun(old(LoopState()))
    {
      copyReady := false;
      match copyPc {
        case AwaitOut =>
          var copied := CopyOnce();
          if copied {
            bulkIrq := bulkIrq.Write(true);
            copyPc := Loopback.CopyPulse(now + Loopback.IRQ_NS);
          }
        case CopyPulse(_) =>
          bulkIrq := bulkIrq.Write(false);
          copyPc := Loopback.AwaitOut;
      }
    }

    // ----- the kernel -----

    /** Takes one step of the host machine on the objects. */
    method Dispatch(a: Action)
      requires Valid() && Enabled(State(), a)
      modifies this, host, host.ring, protocol, device, device.ep1, device.ep2, peer
      ensures State() == Step(old(State()), a)
    {
      hide Advance;
      hide Net;
      hide Resume;
      hide Copied;
      hide Delta;
      hide Enqueued;
      match a {
        case RunHost => ResumeHost();
        case OtherRuns =>
        case SetEnable(on) => hostEnable := hostEnable.Write(on);
        case SubmitOut(addr, ep, data) => QueueOut(addr, ep, data);
        case SubmitIn(addr, ep, len) => QueueIn(addr, ep, len);
        case RunCopy => var _ := CopyOnce();
        case DoDelta(r, enabled) => UpdateHost(r, enabled);
        case DoAdvance(d) => AdvanceHost(d);
      }
    }

    method AdvanceHost(d: nat)
      requires Valid()
      modifies this`now, host`log, host`ready
      ensures State() == Advance(old(State()), d)
    {
      hide Net;
      host.log := host.log.(highNs := host.log.highNs + if host.xferDone.cur then d else 0);
      now := now + d;
      if Timed(host.pc) && now == host.pc.due { host.ready := true; }
    }

    method SwitchRole(r: Role, enabled: bool)
      requires Valid()
      modifies this`role, this`devEnable, device`outPending
      ensures Net() == old(Net()).(role := r, devEnable := enabled, dev := old(device.State()).(outPending := false))
    {
      role, devEnable := r, enabled;
      device.outPending := false;
    }

    /** The events of the update phase: who becomes runnable, and the record of the rise. */
    method FireHostEvents()
      requires Valid()
      modifies host`ready, host`log, host`ringEvent
      ensures host.ready ==
                old(host.ready || (host.pc.AwaitEnable? && Rises(hostEnable)) || (host.pc.AwaitRing? && host.ringEvent))
      ensures host.log ==
                old(host.log.(tick := host.log.tick + 1,
                              rises := host.log.rises + if Rises(host.xferDone) then 1 else 0))
      ensures !host.ringEvent
    {
      host.ready :=
        host.ready || (host.pc.AwaitEnable? && Rises(hostEnable)) || (host.pc.AwaitRing? && host.ringEvent);
      host.log :=
        host.log.(tick := host.log.tick + 1, rises := host.log.rises + if Rises(host.xferDone) then 1 else 0);
      host.ringEvent := false;
    }

    method ShowHostSignals()
      modifies this`hostEnable, host`xferDone, host`enumDone, host`addrOut
      ensures hostEnable == old(hostEnable).Update() && host.xferDone == old(host.xferDone).Update()
      ensures host.enumDone == old(host.enumDone).Update() && host.addrOut == old(host.addrOut).Update()
    {
      hostEnable := hostEnable.Update();
      host.xferDone := host.xferDone.Update();
      host.enumDone := host.enumDone.Update();
      host.addrOut := host.addrOut.Update();
    }

    method UpdateHost(r: Role, enabled: bool)
      requires Valid()
      modifies this`hostEnable, this`role, this`devEnable, host, device`outPending
      ensures State() == Delta(old(State()), r, enabled)
    {
      hide Rises;
      assert Net().dev == device.State();
      hide Net;
      FireHostEvents();
      ShowHostSignals();
      SwitchRole(r, enabled);
    }

    /** Takes one step of the loopback machine on the objects. */
    method DispatchLoop(a: Loopback.Action)
      requires Valid() && Loopback.Enabled(LoopState(), a)
      modifies this, host`respData, host`respValid, protocol, device, device.ep1, device.ep2, peer
      ensures LoopState() == Loopback.Step(old(LoopState()), a)
    {
      match a {
        case FromLink(p) => var _ := Upstream(p);
        case HostSends(e, data) => var _ := RouteTx(HostSide, Packet(Some(e), data));
        case HostSendsBare(data) => var _ := RouteTx(HostSide, Packet(None, data));
        case SetRole(r, enabled) => role, devEnable := r, enabled;
        case RunCopy => ResumeCopy();
        case DoDelta =>
          bulkIrq := bulkIrq.Update();
          if copyPc.AwaitOut? && device.outPending { copyReady := true; }
          device.outPending := false;
        case DoAdvance(d) =>
          now := now + d;
          if copyPc.CopyPulse? && copyPc.due == now { copyReady := true; }
      }
    }

    /** Any allowed schedule, carried out on the objects, is a run of the host machine: it ends
        with every request executed or queued, as asked for and in order, with the peer's and the
        receive buffer those of the one-slot register, and with no answer left over between transfers. */
    method Execute(a: seq<Action>, ghost t: seq<HostMachine.State>)
      requires Valid() && Run(t, a) && State() == t[0]
      modifies this, host, host.ring, protocol, device, device.ep1, device.ep2, peer
      ensures State() == t[|a|]
      ensures |host.ring.queue| <= 256
      ensures HR.AllMade(HP.Trbs(host.log.executed) + host.ring.queue, HR.Requests(a))
      ensures |host.log.executed| <= |HR.Requests(a)|
      ensures HP.Register(peer.slot, host.rxBuf)
           == HR.EchoedAll(HR.Requests(a), host.log.executed, |host.log.executed|)
      ensures host.respValid ==> host.pc.SetupSent? && Reads(host.pc.req)
    {
      RunHostSchedule(a, t);
      HR.TransfersConserved(t, a, |a|);
      HR.BulkRefinesRegister(t, a, |a|);
      assert a[..|a|] == a;
      hide Run;
      hide HR.AllMade;
      hide HR.EchoedAll;
    }

    method RunHostSchedule(a: seq<Action>, ghost t: seq<HostMachine.State>)
      requires Valid() && Run(t, a) && State() == t[0]
      modifies this, host, host.ring, protocol, device, device.ep1, device.ep2, peer
      ensures State() == t[|a|]
    {
      hide State;
      hide Step;
      hide Enabled;
      hide Reset;
      var i := 0;
      while i < |a|
        invariant 0 <= i <= |a|
        invariant State() == t[i]
      {
        Dispatch(a[i]);
        i := i + 1;
      }
    }

    /** The same for the loopback machine: it ends with the payloads put on the link and those in the
        two slots being the ones that arrived, in order, less exactly the overwritten ones, and with
        the last one in a full EP2. */
    method ExecuteLoop(a: seq<Loopback.Action>, ghost t: seq<Loopback.State>)
      requires Valid() && Loopback.Run(t, a) && LoopState() == t[0]
      modifies this, host`respData, host`respValid, protocol, device, device.ep1, device.ep2, peer
      ensures |t| == |a| + 1 && LoopState() == t[|a|]
      ensures var onItsWay := LW.HandedOn(protocol.wire) + LR.Slot(device.ep1.Value()) + LR.Slot(device.ep2.Value());
              var arrived := LW.Arrived(t, a, |a|);
              LR.Subseq(onItsWay, arrived) && |onItsWay| + LR.Overwrites(t, a, |a|) == |arrived|
      ensures device.ep2.hasData ==>
                var arrived := LW.Arrived(t, a, |a|);
                arrived != [] && arrived[|arrived| - 1] == device.ep2.buffer
      ensures device.configured == LW.ConfiguredAsked(a, |a|) && device.addr == LW.AddressAsked(a, |a|)
    {
      hide Loopback.Run;
      hide LW.Arrived;
      hide LR.Overwrites;
      hide LR.Subseq;
      hide LW.ConfiguredAsked;
      hide LW.AddressAsked;
      RunLoopSchedule(a, t);
      LR.OrderPreserved(t, a, |a|);
      LR.LosslessIffNoOverwrite(t, a, |a|);
      LR.SettingsAreRequests(t, a, |a|);
    }

    method RunLoopSchedule(a: seq<Loopback.Action>, ghost t: seq<Loopback.State>)
      requires Valid() && Loopback.Run(t, a) && LoopState() == t[0]
      modifies this, host`respData, host`respValid, protocol, device, device.ep1, device.ep2, peer
      ensures |t| == |a| + 1 && LoopState() == t[|a|]
    {
      hide LoopState;
      hide Loopback.Step;
      hide Loopback.Enabled;
      hide Loopback.Reset;
      var i := 0;
      while i < |a|
        invariant 0 <= i <= |a|
        invariant LoopState() == t[i]
      {
        DispatchLoop(a[i]);
        i := i + 1;
      }
    }
  }
}
