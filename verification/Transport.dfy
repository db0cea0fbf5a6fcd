/** What one transmission does to the whole platform, stated without any call chain.

    A packet sent by a controller goes through the router to the peer, whose answer may come
    back through the router to a controller before the send returns, and that controller may
    send again. The functions here say in closed form where all of that ends. The methods of
    module Platform make the calls one by one and are proved to end up here. */
module Transport {
  import opened Kernel
  import opened UsbTypes
  import opened Descriptors

  /** An endpoint buffer with room for one payload; a write replaces what was there. */
  datatype Fifo = Fifo(buffer: seq<byte>, hasData: bool)

  const EMPTY_FIFO := Fifo([], false)

  /** Descriptor contents. `strings` maps an index to the whole string descriptor. */
  datatype Rom = Rom(dev: DeviceDescriptor, cfg: seq<byte>, bos: seq<byte>, strings: map<byte, seq<byte>>)

  /** The device controller. The last three fields record history: payloads accepted from the
      bulk OUT path, payloads handed to the bulk IN path, and payloads lost to an overwrite. */
  datatype DeviceState = DeviceState(rom: Rom, configured: bool, configuredOut: bool, addr: byte,
                                     ep1: Fifo, ep2: Fifo, outPending: bool,
                                     accepted: seq<seq<byte>>, delivered: seq<seq<byte>>, lost: nat)

  datatype PeerState = PeerState(rom: Rom, addr: byte, configured: bool, slot: seq<byte>)

  /** Which controller handed a packet to the router. */
  datatype Sender = HostSide | DeviceSide

  /** A packet as the router puts it on the link. */
  datatype Frame = Frame(from: Sender, ext: Option<Ext>, data: seq<byte>)

  /** Everything a transmission can read or change. `wire` records the packets the router has put
      on the link, in order. */
  datatype Net = Net(role: Role, devEnable: bool, seqNum: uint32, wire: seq<Frame>,
                     respData: seq<byte>, respValid: bool, dev: DeviceState, peer: PeerState)

  function Truncate(data: seq<byte>, limit: nat): seq<byte> {
    if |data| > limit then data[..limit] else data
  }

  // ----- the router, outbound -----

  function Routed(n: Net, from: Sender, e: Ext, data: seq<byte>): (Net, Ext) {
    if UsesSequence(e.pktType) then
      var e' := e.(seqNum := n.seqNum);
      (n.(seqNum := (n.seqNum + 1) % TWO32, wire := n.wire + [Frame(from, Some(e'), data)]), e')
    else (n.(wire := n.wire + [Frame(from, Some(e), data)]), e)
  }

  function AfterRouting(n: Net, from: Sender, e: Ext, data: seq<byte>): Net { Routed(n, from, e, data).0 }

  // ----- the device controller -----

  /** Metadata of a packet the device sends. */
  function DeviceExt(n: Net, kind: PktType, endpoint: byte, epType: EpType): Ext {
    MakeExt(kind, n.dev.addr, endpoint, DeviceToHost, epType)
  }

  /** The device sends a packet the peer does not answer. */
  function DeviceSent(n: Net, kind: PktType, endpoint: byte, epType: EpType, data: seq<byte>): Net {
    AfterRouting(n, DeviceSide, DeviceExt(n, kind, endpoint, epType), data)
  }

  /** What the device answers to a Get Descriptor request; None stalls the control endpoint. */
  function DeviceDescriptorReply(rom: Rom, s: SetupPkt): Option<seq<byte>> {
    var kind := s.wValue / 256;
    var index := s.wValue % 256;
    if kind == DESC_DEVICE then Some(DescriptorBytes(rom.dev))
    else if kind == DESC_CONFIGURATION then Some(Truncate(rom.cfg, s.wLength))
    else if kind == DESC_BOS then Some(Truncate(rom.bos, s.wLength))
    else if kind == DESC_STRING then
      Some(Truncate(if index in rom.strings then rom.strings[index] else [], s.wLength))
    else None
  }

  /** What the device sends in answer to a setup packet, if anything. */
  datatype Answer = Answer(kind: PktType, data: seq<byte>)

  const STALL := Answer(TpStall, [0, 0, 0, 0])

  function SetupReply(n: Net, s: SetupPkt): Option<Answer> {
    if s.bRequest == REQ_GET_DESCRIPTOR then
      match DeviceDescriptorReply(n.dev.rom, s)
      case Some(data) => Some(Answer(CtrlData, data))
      case None => Some(STALL)
    else if s.bRequest == REQ_SET_ADDRESS || s.bRequest == REQ_SET_CONFIGURATION then None
    else if s.bRequest == REQ_GET_STATUS then Some(Answer(CtrlData, [0, 0]))
    else Some(STALL)
  }

  function DeviceSetup(n: Net, s: SetupPkt): Net {
    match SetupReply(n, s)
    case Some(answer) => DeviceSent(n, answer.kind, 0, Control, answer.data)
    case None =>
      if s.bRequest == REQ_SET_ADDRESS then n.(dev := n.dev.(addr := s.wValue % 128))
      else n.(dev := n.dev.(configured := true, configuredOut := true))
  }

  function DeviceSetupResponse(n: Net, s: SetupPkt): Response {
    match SetupReply(n, s)
    case Some(answer) => if answer.kind == TpStall then GenericError else Ok
    case None => Ok
  }

  function OutLanded(d: DeviceState, data: seq<byte>): DeviceState {
    d.(ep2 := Fifo(data, true), outPending := true, accepted := d.accepted + [data],
       lost := d.lost + if d.ep2.hasData then 1 else 0)
  }

  function InTaken(d: DeviceState): DeviceState {
    d.(ep1 := EMPTY_FIFO, delivered := d.delivered + [d.ep1.buffer])
  }

  /** A full EP1 is emptied onto the link, and the peer forgets its buffer. */
  function DeviceHandsOn(n: Net): Net {
    DeviceSent(n.(dev := InTaken(n.dev), peer := n.peer.(slot := [])), BulkIn, 1, Bulk, n.dev.ep1.buffer)
  }

  /** A packet reaching the device block, in the device role. A bulk IN empties a full EP1 onto
      the wire; the peer's echo of that finds EP1 empty, and the peer forgets its buffer. */
  function DeviceGot(n: Net, p: Packet): Net {
    if !n.devEnable || p.ext.None? then n
    else match p.ext.value.pktType
      case Setup => DeviceSetup(n, p.ext.value.setup)
      case BulkOut | CtrlData => n.(dev := OutLanded(n.dev, p.data))
      case CtrlStatus => DeviceSent(n, CtrlStatus, 0, Control, [0])
      case BulkIn => if n.dev.ep1.hasData then DeviceHandsOn(n) else n
      case _ => n
  }

  function DeviceResponse(n: Net, p: Packet): Response {
    if !n.devEnable || p.ext.None? then GenericError
    else match p.ext.value.pktType
      case Setup => DeviceSetupResponse(n, p.ext.value.setup)
      case BulkOut | CtrlData | CtrlStatus | BulkIn => Ok
      case _ => GenericError
  }

  /** The copy thread moves EP2 to EP1 and announces it. */
  predicate Copies(n: Net) { n.dev.configured && n.dev.ep2.hasData }

  function Copied(n: Net): Net {
    if Copies(n) then
      var d := n.dev;
      DeviceSent(n.(dev := d.(ep1 := Fifo(d.ep2.buffer, true), ep2 := EMPTY_FIFO,
                              lost := d.lost + if d.ep1.hasData then 1 else 0)),
                 TpErdy, 1, Control, [1, 0, 0, 0])
    else n
  }

  // ----- the router, inbound -----

  function HostGot(n: Net, data: seq<byte>): Net {
    if data == [] then n else n.(respData := data, respValid := true)
  }

  function Forwarded(n: Net, p: Packet): Net {
    match n.role
    case Host => HostGot(n, p.data)
    case Device => DeviceGot(n, p)
    case RoleNone => n
  }

  function ForwardResponse(n: Net, p: Packet): Response {
    if n.role == Device then DeviceResponse(n, p) else Incomplete
  }

  predicate Absorbed(p: Packet) {
    p.ext.Some? && (p.ext.value.pktType == TpAck || p.ext.value.pktType == TpNrdy || p.ext.value.pktType == TpErdy)
  }

  function Marked(p: Packet): Packet {
    if p.ext.Some? && p.ext.value.pktType == TpStall then
      Packet(Some(p.ext.value.(code := StallErr)), p.data)
    else p
  }

  /** A packet arriving from the link. */
  function Received(n: Net, p: Packet): Net {
    if Absorbed(p) then n else Forwarded(n, Marked(p))
  }

  function ReceiveResponse(n: Net, p: Packet): Response {
    if Absorbed(p) then Incomplete else ForwardResponse(n, Marked(p))
  }

  // ----- the peer -----

  function PeerPacket(n: Net, kind: PktType, endpoint: byte, data: seq<byte>): Packet {
    Packet(Some(MakeExt(kind, n.peer.addr, endpoint, DeviceToHost, Bulk)), data)
  }

  function PeerReply(rom: Rom, s: SetupPkt): seq<byte> {
    var kind := s.wValue / 256;
    Truncate(if kind == DESC_DEVICE then DescriptorBytes(rom.dev)
             else if kind == DESC_CONFIGURATION then rom.cfg
             else if kind == DESC_BOS then rom.bos
             else [], s.wLength)
  }

  function PeerSetup(n: Net, s: SetupPkt): Net {
    if s.bRequest == REQ_GET_DESCRIPTOR then
      var reply := PeerReply(n.peer.rom, s);
      if reply == [] then n else Received(n, PeerPacket(n, CtrlData, 0, reply))
    else if s.bRequest == REQ_SET_ADDRESS then n.(peer := n.peer.(addr := s.wValue % 128))
    else if s.bRequest == REQ_SET_CONFIGURATION then n.(peer := n.peer.(configured := true))
    else n
  }

  /** The peer's whole reaction to a packet with metadata; it always answers Ok. */
  function PeerGot(n: Net, e: Ext, data: seq<byte>): Net {
    match e.pktType
    case Setup => PeerSetup(n, e.setup)
    case BulkOut => n.(peer := n.peer.(slot := data))
    case BulkIn =>
      if n.peer.slot == [] then n
      else
        var m := Received(n, PeerPacket(n, BulkIn, e.endpoint, n.peer.slot));
        m.(peer := m.peer.(slot := []))
    case _ => n
  }

  /** A controller sends a packet with metadata: everything that has happened when the send returns. */
  function Sent(n: Net, from: Sender, e: Ext, data: seq<byte>): Net {
    var (n', e') := Routed(n, from, e, data);
    PeerGot(n', e', data)
  }

  /** A packet sent without metadata goes out as a data packet and takes no number. */
  function SentBare(n: Net, from: Sender, data: seq<byte>): Net {
    n.(wire := n.wire + [Frame(from, None, data)])
  }
}
