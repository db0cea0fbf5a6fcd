/** What goes out on the link and what comes back, packet by packet and byte by byte: the frames
    of a send, the device's answer to each packet it takes, and the peer's answers. */
module LinkProps {
  import opened Kernel
  import opened UsbTypes
  import opened Descriptors
  import opened Transport
  import opened TransportProps

  /** The frame carries these bytes under this metadata, and no setup data. */
  predicate Carries(f: Frame, from: Sender, kind: PktType, addr: byte, endpoint: byte, dir: Direction,
                    epType: EpType, data: seq<byte>) {
    && f.from == from && f.data == data && f.ext.Some?
    && f.ext.value.pktType == kind && f.ext.value.devAddr == addr && f.ext.value.endpoint == endpoint
    && f.ext.value.direction == dir && f.ext.value.epType == epType && f.ext.value.code == Success
    && f.ext.value.setup == SetupPkt(0, 0, 0, 0, 0)
  }

  /** `data` is `all` cut to at most `limit` bytes. */
  predicate Cut(data: seq<byte>, all: seq<byte>, limit: nat) {
    data <= all && |data| == if |all| < limit then |all| else limit
  }

  lemma TruncateCuts(all: seq<byte>, limit: nat)
    ensures Cut(Truncate(all, limit), all, limit)
  {}

  // ----- the device's answers -----

  /** The device sends something back for the packet. */
  predicate Answered(n: Net, e: Ext) {
    || (e.pktType == Setup && e.setup.bRequest != 5 && e.setup.bRequest != 9)
    || e.pktType == CtrlStatus
    || (e.pktType == BulkIn && n.dev.ep1.hasData)
  }

  /** What it sends, by the packet: descriptors by type and cut to the length asked for, except the
      device descriptor; two zero bytes for a status; a stall for anything it does not know. */
  predicate AnswerIs(n: Net, e: Ext, f: Frame) {
    var addr, rom := n.dev.addr, n.dev.rom;
    var s := e.setup;
    match e.pktType
    case CtrlStatus => Carries(f, DeviceSide, CtrlStatus, addr, 0, DeviceToHost, Control, [0])
    case BulkIn => Carries(f, DeviceSide, BulkIn, addr, 1, DeviceToHost, Bulk, n.dev.ep1.buffer)
    case _ =>
      if s.bRequest == 0 then Carries(f, DeviceSide, CtrlData, addr, 0, DeviceToHost, Control, [0, 0])
      else if s.bRequest != 6 || s.wValue / 256 !in {1, 2, 3, 15} then
        Carries(f, DeviceSide, TpStall, addr, 0, DeviceToHost, Control, [0, 0, 0, 0])
      else
        && Carries(f, DeviceSide, CtrlData, addr, 0, DeviceToHost, Control, f.data)
        && (s.wValue / 256 == 1 ==> f.data == DescriptorBytes(rom.dev))
        && (s.wValue / 256 == 2 ==> Cut(f.data, rom.cfg, s.wLength))
        && (s.wValue / 256 == 15 ==> Cut(f.data, rom.bos, s.wLength))
        && (s.wValue / 256 == 3 ==>
              Cut(f.data, if s.wValue % 256 in rom.strings then rom.strings[s.wValue % 256] else [], s.wLength))
  }

  lemma SetupAnswer(n: Net, e: Ext)
    requires e.pktType == Setup && Answered(n, e)
    ensures var m := DeviceSetup(n, e.setup);
            && |m.wire| == |n.wire| + 1 && m.wire[..|n.wire|] == n.wire && AnswerIs(n, e, m.wire[|n.wire|])
            && m == n.(wire := m.wire)
  {
    TruncateCuts(n.dev.rom.cfg, e.setup.wLength);
    TruncateCuts(n.dev.rom.bos, e.setup.wLength);
    var index := e.setup.wValue % 256;
    TruncateCuts(if index in n.dev.rom.strings then n.dev.rom.strings[index] else [], e.setup.wLength);
    hide Truncate;
    hide Cut;
  }

  /** A packet from the link, taken in the device role with the block enabled: it is answered with
      exactly the frame it asks for, or not at all, and the response is an error exactly if the
      answer is a stall or the device does not take such packets. */
  lemma LinkAnswered(n: Net, p: Packet)
    requires n.role == Device && n.devEnable && p.ext.Some?
    ensures var e, w := p.ext.value, Received(n, p).wire;
            if Answered(n, e) then
              |w| == |n.wire| + 1 && w[..|n.wire|] == n.wire && AnswerIs(n, e, w[|n.wire|])
            else w == n.wire
    ensures var e, w := p.ext.value, Received(n, p).wire;
            ReceiveResponse(n, p) ==
              if e.pktType in {TpAck, TpNrdy, TpErdy} then Incomplete
              else if e.pktType in {TpStall, DpData} then GenericError
              else if |w| > |n.wire| && w[|n.wire|].ext.value.pktType == TpStall then GenericError
              else Ok
  {
    var e := p.ext.value;
    if e.pktType == Setup && Answered(n, e) { SetupAnswer(n, e); }
  }

  /** What else such a packet does to the device block: a payload lands, or a full EP1 is emptied,
      or the address or the configured flag is set as the request says. */
  lemma LinkTaken(n: Net, p: Packet)
    requires n.role == Device && n.devEnable && p.ext.Some?
    ensures var e, d, d' := p.ext.value, n.dev, Received(n, p).dev;
            match e.pktType
            case BulkOut | CtrlData =>
              d'.ep2 == Fifo(p.data, true) && d'.outPending && d'.ep1 == d.ep1
              && d'.addr == d.addr && d'.configured == d.configured && d'.configuredOut == d.configuredOut
            case BulkIn =>
              d'.ep1 == Fifo(if d.ep1.hasData then [] else d.ep1.buffer, false) && d'.ep2 == d.ep2
              && d'.addr == d.addr && d'.configured == d.configured && d'.configuredOut == d.configuredOut
            case Setup =>
              && d'.addr == (if e.setup.bRequest == 5 then e.setup.wValue % 128 else d.addr)
              && d'.configured == (d.configured || e.setup.bRequest == 9)
              && d'.configuredOut == (d.configuredOut || e.setup.bRequest == 9)
              && d'.ep1 == d.ep1 && d'.ep2 == d.ep2
            case _ => d' == d
  {}

  /** Anywhere else a packet from the link sends nothing back: handshakes stop at the router; in the
      host role a payload is kept for the host; without a role, with the block off or without
      metadata nothing happens at all, and the response says so. */
  lemma LinkUnanswered(n: Net, p: Packet)
    requires n.role != Device || !n.devEnable || p.ext.None?
    ensures var handshake := p.ext.Some? && p.ext.value.pktType in {TpAck, TpNrdy, TpErdy};
            && Received(n, p) == (if n.role == Host && p.data != [] && !handshake
                                  then n.(respData := p.data, respValid := true) else n)
            && ReceiveResponse(n, p) == if n.role == Device && !handshake then GenericError else Incomplete
  {}

  // ----- the peer's answers -----

  /** The peer answers a descriptor read with the descriptor of that type, cut to the length asked
      for, and with nothing if it has none. */
  lemma PeerReplies(rom: Rom, s: SetupPkt)
    ensures Cut(PeerReply(rom, s),
                if s.wValue / 256 == 1 then DescriptorBytes(rom.dev)
                else if s.wValue / 256 == 2 then rom.cfg
                else if s.wValue / 256 == 15 then rom.bos
                else [], s.wLength)
  {
    hide DescriptorBytes;
  }

  // ----- the frames of a send -----

  /** The metadata a packet leaves the router with. */
  function Stamped(n: Net, e: Ext): Ext { if UsesSequence(e.pktType) then e.(seqNum := n.seqNum) else e }

  /** A send puts its own packet on the link and nothing else, except that one that bounces off a
      full EP1 is followed by that payload, from the device. */
  lemma SentWire(n: Net, from: Sender, e: Ext, data: seq<byte>)
    ensures var w, own := Sent(n, from, e, data).wire, Frame(from, Some(Stamped(n, e)), data);
            if Bounces(n, e) then
              && |w| == |n.wire| + 2 && w[..|n.wire|] == n.wire && w[|n.wire|] == own
              && Carries(w[|n.wire| + 1], DeviceSide, BulkIn, n.dev.addr, 1, DeviceToHost, Bulk, n.dev.ep1.buffer)
            else w == n.wire + [own]
  {
    hide PeerReply;
    var (m, e') := Routed(n, from, e, data);
    if e.pktType == BulkIn && n.peer.slot != [] {
      var p := PeerPacket(m, BulkIn, e'.endpoint, m.peer.slot);
      if DeviceListens(n) { LinkAnswered(m, p); } else { LinkUnanswered(m, p); }
    }
  }

  /** A copy moves EP2's payload to EP1 and announces EP1 with one ERDY; otherwise nothing happens. */
  lemma CopyWire(n: Net)
    ensures var m := Copied(n);
            if n.dev.configured && n.dev.ep2.hasData then
              && |m.wire| == |n.wire| + 1 && m.wire[..|n.wire|] == n.wire
              && Carries(m.wire[|n.wire|], DeviceSide, TpErdy, n.dev.addr, 1, DeviceToHost, Control, [1, 0, 0, 0])
              && m.dev.ep1 == Fifo(n.dev.ep2.buffer, true) && m.dev.ep2 == Fifo([], false)
            else m == n
  {}
}
