/** Laws of transmission: numbering, how far a packet can travel, and what link traffic may change. */
module TransportProps {
  import opened Kernel
  import opened UsbTypes
  import opened Transport

  // ----- sequence numbers -----

  predicate Takes(o: Option<Ext>) { o.Some? && UsesSequence(o.value.pktType) }

  /** The numbers on the wire, of the packets that carry metadata and use numbering, in order. */
  function Numbers(w: seq<Frame>): seq<uint32> {
    if w == [] then []
    else Numbers(w[..|w| - 1]) + if Takes(w[|w| - 1].ext) then [w[|w| - 1].ext.value.seqNum] else []
  }

  /** The k-th numbered packet carries k modulo 2^32, and so will the next. */
  ghost predicate NumberedWire(next: uint32, w: seq<Frame>) {
    && next == |Numbers(w)| % TWO32
    && forall k | 0 <= k < |Numbers(w)| :: Numbers(w)[k] == k % TWO32
  }

  ghost predicate Numbered(n: Net) { NumberedWire(n.seqNum, n.wire) }

  lemma {:induction false} RoutingNumbers(n: Net, from: Sender, e: Ext, data: seq<byte>)
    requires Numbered(n)
    ensures var m := AfterRouting(n, from, e, data);
            && Numbered(m)
            && (!UsesSequence(e.pktType) ==>
                  m.wire == n.wire + [Frame(from, Some(e), data)] && m.seqNum == n.seqNum)
  {
    var w := AfterRouting(n, from, e, data).wire;
    assert w[..|w| - 1] == n.wire;
    var k := |Numbers(n.wire)|;
    assert (k % TWO32 + 1) % TWO32 == (k + 1) % TWO32;
  }

  lemma AnsweringNumbers(n: Net, kind: PktType, endpoint: byte, epType: EpType, data: seq<byte>)
    requires Numbered(n)
    ensures Numbered(DeviceSent(n, kind, endpoint, epType, data))
  {
    RoutingNumbers(n, DeviceSide, DeviceExt(n, kind, endpoint, epType), data);
  }

  lemma ReceivingNumbers(n: Net, p: Packet)
    requires Numbered(n)
    ensures Numbered(Received(n, p))
  {
    hide NumberedWire;
    hide DeviceSent;
    var q := Marked(p);
    if !Absorbed(p) && n.role == Device && n.devEnable && q.ext.Some? {
      var kind := q.ext.value.pktType;
      if kind == Setup && SetupReply(n, q.ext.value.setup).Some? {
        var answer := SetupReply(n, q.ext.value.setup).value;
        AnsweringNumbers(n, answer.kind, 0, Control, answer.data);
      } else if kind == CtrlStatus {
        AnsweringNumbers(n, CtrlStatus, 0, Control, [0]);
      } else if kind == BulkIn {
        AnsweringNumbers(n.(dev := InTaken(n.dev), peer := n.peer.(slot := [])), BulkIn, 1, Bulk, n.dev.ep1.buffer);
      }
    }
  }

  lemma SendingNumbers(n: Net, from: Sender, e: Ext, data: seq<byte>)
    requires Numbered(n)
    ensures Numbered(Sent(n, from, e, data))
  {
    hide NumberedWire;
    hide Received;
    hide PeerReply;
    RoutingNumbers(n, from, e, data);
    var (m, e') := Routed(n, from, e, data);
    assert Numbered(m);
    if e.pktType == Setup {
      ReceivingNumbers(m, PeerPacket(m, CtrlData, 0, PeerReply(m.peer.rom, e'.setup)));
    } else if e.pktType == BulkIn {
      ReceivingNumbers(m, PeerPacket(m, BulkIn, e'.endpoint, m.peer.slot));
    }
    hide Routed;
  }

  lemma CopyingNumbers(n: Net)
    requires Numbered(n)
    ensures Numbered(Copied(n))
  {
    hide NumberedWire;
    hide DeviceSent;
    if Copies(n) {
      var d := n.dev;
      AnsweringNumbers(n.(dev := d.(ep1 := Fifo(d.ep2.buffer, true), ep2 := EMPTY_FIFO,
                                    lost := d.lost + if d.ep1.hasData then 1 else 0)),
                       TpErdy, 1, Control, [1, 0, 0, 0]);
    }
  }

  /** A packet without metadata takes no number. */
  lemma BareKeepsNumbers(n: Net, from: Sender, data: seq<byte>)
    requires Numbered(n)
    ensures Numbered(SentBare(n, from, data)) && Numbers(SentBare(n, from, data).wire) == Numbers(n.wire)
  {
    assert (n.wire + [Frame(from, None, data)])[..|n.wire|] == n.wire;
  }

  /** Numbers repeat only after 2^32 numbered packets. */
  lemma NumbersDistinct(n: Net, i: nat, j: nat)
    requires Numbered(n) && i < j < |Numbers(n.wire)| && j - i < TWO32
    ensures Numbers(n.wire)[i] != Numbers(n.wire)[j]
  {}

  // ----- how far a packet travels -----

  /** The host's bulk IN finds the peer's buffer full and the device block answering it with a full EP1. */
  predicate Bounces(n: Net, e: Ext) {
    && e.pktType == BulkIn && n.peer.slot != []
    && n.role == Device && n.devEnable && n.dev.ep1.hasData
  }

  /** One send puts exactly one packet on the wire, or exactly two when it bounces; then EP1 is empty. */
  lemma SendReach(n: Net, from: Sender, e: Ext, data: seq<byte>)
    ensures |Sent(n, from, e, data).wire| == |n.wire| + if Bounces(n, e) then 2 else 1
    ensures Bounces(n, e) ==> !Sent(n, from, e, data).dev.ep1.hasData
    ensures n.wire <= Sent(n, from, e, data).wire
  {
    var (m, e') := Routed(n, from, e, data);
    if e.pktType == BulkIn && m.peer.slot != [] {
      assert Received(m, PeerPacket(m, BulkIn, e'.endpoint, m.peer.slot)) ==
             Forwarded(m, PeerPacket(m, BulkIn, e'.endpoint, m.peer.slot));
    }
  }

  // ----- isolation -----

  /** The device block takes what the link brings. */
  predicate DeviceListens(n: Net) { n.role == Device && n.devEnable }

  /** A packet from the link changes the device block only in the device role with the block enabled. */
  lemma ReceiveIsolation(n: Net, p: Packet)
    ensures !DeviceListens(n) ==> Received(n, p).dev == n.dev
    ensures n.role != Host ==> Received(n, p).respData == n.respData && Received(n, p).respValid == n.respValid
    ensures n.role == RoleNone ==> Received(n, p) == n
  {}

  lemma SendIsolation(n: Net, from: Sender, e: Ext, data: seq<byte>)
    ensures !DeviceListens(n) ==> Sent(n, from, e, data).dev == n.dev
    ensures n.role != Host ==>
              Sent(n, from, e, data).respData == n.respData && Sent(n, from, e, data).respValid == n.respValid
  {
    var (m, e') := Routed(n, from, e, data);
    if e.pktType == Setup {
      ReceiveIsolation(m, PeerPacket(m, CtrlData, 0, PeerReply(m.peer.rom, e'.setup)));
    } else if e.pktType == BulkIn {
      ReceiveIsolation(m, PeerPacket(m, BulkIn, e'.endpoint, m.peer.slot));
    }
  }

  // ----- what reaches the device block -----

  /** The ways link traffic can change the device block. */
  datatype Move = Still | Landed(data: seq<byte>) | Taken | NewAddress(addr: byte) | NowConfigured

  function Moved(d: DeviceState, m: Move): DeviceState {
    match m
    case Still => d
    case Landed(data) => OutLanded(d, data)
    case Taken => InTaken(d)
    case NewAddress(addr) => d.(addr := addr)
    case NowConfigured => d.(configured := true, configuredOut := true)
  }

  /** The move a packet from the link makes. */
  function LinkMove(n: Net, p: Packet): Move {
    if !DeviceListens(n) || p.ext.None? then Still
    else match p.ext.value.pktType
      case Setup =>
        if p.ext.value.setup.bRequest == REQ_SET_ADDRESS then NewAddress(p.ext.value.setup.wValue % 128)
        else if p.ext.value.setup.bRequest == REQ_SET_CONFIGURATION then NowConfigured
        else Still
      case BulkOut | CtrlData => Landed(p.data)
      case BulkIn => if n.dev.ep1.hasData then Taken else Still
      case _ => Still
  }

  /** The move the peer's answer to a sent packet makes. */
  function SendMove(n: Net, e: Ext): Move {
    if Bounces(n, e) then Taken
    else if DeviceListens(n) && e.pktType == Setup && e.setup.bRequest == REQ_GET_DESCRIPTOR
            && PeerReply(n.peer.rom, e.setup) != []
    then Landed(PeerReply(n.peer.rom, e.setup))
    else Still
  }

  lemma ReceivedDevice(n: Net, p: Packet)
    ensures Received(n, p).dev == Moved(n.dev, LinkMove(n, p))
  {}

  lemma SentDevice(n: Net, from: Sender, e: Ext, data: seq<byte>)
    ensures Sent(n, from, e, data).dev == Moved(n.dev, SendMove(n, e))
  {
    var (m, e') := Routed(n, from, e, data);
    assert m == n.(seqNum := m.seqNum, wire := m.wire) && e' == e.(seqNum := e'.seqNum);
    hide Routed;
    hide Received;
    hide Moved;
    hide PeerReply;
    if e.pktType == Setup {
      var reply := PeerReply(n.peer.rom, e.setup);
      ReceivedDevice(m, PeerPacket(m, CtrlData, 0, reply));
      assert LinkMove(m, PeerPacket(m, CtrlData, 0, reply)) == if DeviceListens(n) then Landed(reply) else Still;
      hide LinkMove;
    } else if e.pktType == BulkIn {
      ReceivedDevice(m, PeerPacket(m, BulkIn, e'.endpoint, m.peer.slot));
    }
    StillIsSame(n.dev);
  }

  lemma StillIsSame(d: DeviceState)
    ensures Moved(d, Still) == d
  {}

  // ----- control transfers -----

  predicate SameBulkPath(n: Net, m: Net) {
    && m.role == n.role && m.devEnable == n.devEnable
    && m.dev.rom == n.dev.rom && m.peer.rom == n.peer.rom
    && m.peer.slot == n.peer.slot
  }

  lemma SendKeepsRole(n: Net, from: Sender, e: Ext, data: seq<byte>)
    ensures Sent(n, from, e, data).role == n.role && Sent(n, from, e, data).devEnable == n.devEnable
  {}

  lemma ControlSend(n: Net, from: Sender, e: Ext, data: seq<byte>)
    requires e.pktType == Setup || e.pktType == CtrlStatus
    ensures SameBulkPath(n, Sent(n, from, e, data))
    ensures e.pktType == CtrlStatus || e.setup.bRequest != REQ_GET_DESCRIPTOR ==>
              Sent(n, from, e, data).respData == n.respData && Sent(n, from, e, data).respValid == n.respValid
    ensures e.pktType == Setup && e.setup.bRequest == REQ_GET_DESCRIPTOR ==>
              var reply := PeerReply(n.peer.rom, e.setup);
              Sent(n, from, e, data).respValid == (n.respValid || (n.role == Host && reply != []))
              && (n.role == Host && reply != [] ==> Sent(n, from, e, data).respData == reply)
  {}

  /** The peer's own address and configured flag follow the requests sent to it, and nothing else. */
  lemma PeerFollowsRequests(n: Net, from: Sender, e: Ext, data: seq<byte>)
    ensures var m := Sent(n, from, e, data);
            && m.peer.rom == n.peer.rom
            && m.peer.configured ==
                 (n.peer.configured || (e.pktType == Setup && e.setup.bRequest == REQ_SET_CONFIGURATION))
            && m.peer.addr ==
                 if e.pktType == Setup && e.setup.bRequest == REQ_SET_ADDRESS then e.setup.wValue % 128
                 else n.peer.addr
  {}

  predicate SetsAddress(o: Option<Ext>) {
    o.Some? && o.value.pktType == Setup && o.value.setup.bRequest == REQ_SET_ADDRESS
  }

  /** How many Set Address requests have gone out. */
  function AddressesSent(w: seq<Frame>): nat {
    if w == [] then 0
    else AddressesSent(w[..|w| - 1]) + if SetsAddress(w[|w| - 1].ext) then 1 else 0
  }

  lemma {:induction false} RoutingCounts(n: Net, from: Sender, e: Ext, data: seq<byte>)
    ensures AddressesSent(AfterRouting(n, from, e, data).wire)
         == AddressesSent(n.wire) + if SetsAddress(Some(e)) then 1 else 0
  {
    var w := AfterRouting(n, from, e, data).wire;
    assert w[..|w| - 1] == n.wire;
  }

  lemma AnsweringCounts(n: Net, kind: PktType, endpoint: byte, epType: EpType, data: seq<byte>)
    requires kind != Setup
    ensures AddressesSent(DeviceSent(n, kind, endpoint, epType, data).wire) == AddressesSent(n.wire)
  {
    RoutingCounts(n, DeviceSide, DeviceExt(n, kind, endpoint, epType), data);
  }

  lemma ReceivingCounts(n: Net, p: Packet)
    ensures AddressesSent(Received(n, p).wire) == AddressesSent(n.wire)
  {
    hide AddressesSent;
    hide DeviceSent;
    var q := Marked(p);
    if !Absorbed(p) && n.role == Device && n.devEnable && q.ext.Some? {
      var kind := q.ext.value.pktType;
      if kind == Setup && SetupReply(n, q.ext.value.setup).Some? {
        var answer := SetupReply(n, q.ext.value.setup).value;
        AnsweringCounts(n, answer.kind, 0, Control, answer.data);
      } else if kind == CtrlStatus {
        AnsweringCounts(n, CtrlStatus, 0, Control, [0]);
      } else if kind == BulkIn {
        AnsweringCounts(n.(dev := InTaken(n.dev), peer := n.peer.(slot := [])), BulkIn, 1, Bulk, n.dev.ep1.buffer);
      }
    }
  }

  /** Only the sender's own packet can be a Set Address request: no answer to it ever is. */
  lemma SendingCounts(n: Net, from: Sender, e: Ext, data: seq<byte>)
    ensures AddressesSent(Sent(n, from, e, data).wire)
         == AddressesSent(n.wire) + if SetsAddress(Some(e)) then 1 else 0
  {
    hide AddressesSent;
    hide Received;
    hide PeerReply;
    RoutingCounts(n, from, e, data);
    var (m, e') := Routed(n, from, e, data);
    if e.pktType == Setup {
      ReceivingCounts(m, PeerPacket(m, CtrlData, 0, PeerReply(m.peer.rom, e'.setup)));
    } else if e.pktType == BulkIn {
      ReceivingCounts(m, PeerPacket(m, BulkIn, e'.endpoint, m.peer.slot));
    }
  }

  lemma CopyingCounts(n: Net)
    ensures AddressesSent(Copied(n).wire) == AddressesSent(n.wire)
  {
    hide AddressesSent;
    hide DeviceSent;
    if Copies(n) {
      var d := n.dev;
      AnsweringCounts(n.(dev := d.(ep1 := Fifo(d.ep2.buffer, true), ep2 := EMPTY_FIFO,
                                   lost := d.lost + if d.ep1.hasData then 1 else 0)),
                      TpErdy, 1, Control, [1, 0, 0, 0]);
    }
  }

  /** The copy thread touches the device block and the wire, nothing else. */
  lemma CopyIsolation(n: Net)
    ensures var m := Copied(n);
            && m.role == n.role && m.devEnable == n.devEnable && m.peer == n.peer
            && m.respData == n.respData && m.respValid == n.respValid
  {}
}
