/** The loopback seen from outside: the payloads that reach the device block, read off what the
    environment did, and the packets the device puts on the link, read off the link. */
module LoopbackWire {
  import opened Kernel
  import opened UsbTypes
  import opened Transport
  import opened TransportProps
  import opened LinkProps
  import opened Loopback

  // ----- what arrives -----

  /** The environment's last word before step n is: device role, device block on. */
  predicate Listening(a: seq<Action>, n: nat)
    requires n <= |a|
  {
    n > 0 && if a[n - 1].SetRole? then a[n - 1].role == Device && a[n - 1].devEnable else Listening(a, n - 1)
  }

  /** The payload step n brings to the device block, if it brings one: bulk or control data from the
      link, or the peer's answer to a descriptor read of the host side. */
  function Arriving(t: seq<State>, a: seq<Action>, n: nat): seq<seq<byte>>
    requires n < |a| < |t|
  {
    if !Listening(a, n) then []
    else match a[n]
      case FromLink(p) =>
        if p.ext.Some? && (p.ext.value.pktType == BulkOut || p.ext.value.pktType == CtrlData) then [p.data] else []
      case HostSends(e, _) =>
        var reply := PeerReply(t[0].net.peer.rom, e.setup);
        if e.pktType == Setup && e.setup.bRequest == 6 && reply != [] then [reply] else []
      case _ => []
  }

  function Arrived(t: seq<State>, a: seq<Action>, n: nat): seq<seq<byte>>
    requires n <= |a| < |t|
  {
    if n == 0 then [] else Arrived(t, a, n - 1) + Arriving(t, a, n - 1)
  }

  lemma StepRole(s: State, a: Action)
    ensures var n, n' := s.net, Step(s, a).net;
            && n'.role == (if a.SetRole? then a.role else n.role)
            && n'.devEnable == (if a.SetRole? then a.devEnable else n.devEnable)
            && n'.peer.rom == n.peer.rom
  {
    match a {
      case FromLink(p) =>
      case HostSends(e, data) =>
        SendKeepsRole(s.net, HostSide, e, data);
        PeerFollowsRequests(s.net, HostSide, e, data);
        hide Sent;
      case _ =>
    }
  }

  lemma StepAccepts(s: State, a: Action)
    ensures Step(s, a).net.dev.accepted == s.net.dev.accepted +
              if !DeviceListens(s.net) then []
              else match a
                case FromLink(p) =>
                  if p.ext.Some? && (p.ext.value.pktType == BulkOut || p.ext.value.pktType == CtrlData) then [p.data]
                  else []
                case HostSends(e, _) =>
                  var reply := PeerReply(s.net.peer.rom, e.setup);
                  if e.pktType == Setup && e.setup.bRequest == 6 && reply != [] then [reply] else []
                case _ => []
  {
    hide PeerReply;
    hide Received;
    hide Sent;
    match a {
      case FromLink(p) => ReceivedDevice(s.net, p);
      case HostSends(e, data) => SentDevice(s.net, HostSide, e, data);
      case _ =>
    }
  }

  lemma RunStep(t: seq<State>, a: seq<Action>, i: nat)
    requires Run(t, a) && i < |a|
    ensures |t| == |a| + 1 && Enabled(t[i], a[i]) && t[i + 1] == Step(t[i], a[i])
  {
    hide Enabled;
    hide Step;
    hide Reset;
  }

  /** The device block has accepted exactly the payloads that came, each as it came, and listens
      exactly when the environment has it listen. */
  lemma {:induction false} AcceptedIsArrived(t: seq<State>, a: seq<Action>, n: nat)
    requires Run(t, a) && n < |t|
    ensures |t| == |a| + 1 && t[n].net.dev.accepted == Arrived(t, a, n)
    ensures DeviceListens(t[n].net) <==> Listening(a, n)
    ensures t[n].net.peer.rom == t[0].net.peer.rom
  {
    if n == 0 {
      assert |t| == |a| + 1;
    } else {
      hide Run;
      hide Step;
      hide PeerReply;
      RunStep(t, a, n - 1);
      AcceptedIsArrived(t, a, n - 1);
      StepRole(t[n - 1], a[n - 1]);
      StepAccepts(t[n - 1], a[n - 1]);
    }
  }

  // ----- what is asked of the device -----

  /** The link brings a setup packet with this request code. */
  predicate Asks(x: Action, code: byte) {
    x.FromLink? && x.p.ext.Some? && x.p.ext.value.pktType == Setup && x.p.ext.value.setup.bRequest == code
  }

  predicate ConfiguredAsked(a: seq<Action>, n: nat)
    requires n <= |a|
  {
    n > 0 && ((Listening(a, n - 1) && Asks(a[n - 1], 9)) || ConfiguredAsked(a, n - 1))
  }

  /** The address last asked for, in seven bits. */
  function AddressAsked(a: seq<Action>, n: nat): byte
    requires n <= |a|
  {
    if n == 0 then 0
    else if Listening(a, n - 1) && Asks(a[n - 1], 5) then a[n - 1].p.ext.value.setup.wValue % 128
    else AddressAsked(a, n - 1)
  }

  lemma StepSettings(s: State, a: Action)
    ensures var d, d' := s.net.dev, Step(s, a).net.dev;
            && d'.configured == (d.configured || (DeviceListens(s.net) && Asks(a, 9)))
            && d'.configuredOut == (d.configuredOut || (DeviceListens(s.net) && Asks(a, 9)))
            && d'.addr == if DeviceListens(s.net) && Asks(a, 5) then a.p.ext.value.setup.wValue % 128 else d.addr
  {
    hide Sent;
    hide Received;
    hide PeerReply;
    match a {
      case FromLink(p) =>
        if DeviceListens(s.net) && p.ext.Some? { LinkTaken(s.net, p); } else { LinkUnanswered(s.net, p); }
      case HostSends(e, data) => SentDevice(s.net, HostSide, e, data);
      case _ =>
    }
  }

  // ----- what leaves -----

  /** The payloads of the bulk IN packets the device has put on the link, in order. */
  function HandedOn(w: seq<Frame>): seq<seq<byte>> {
    if w == [] then [] else HandedOn(w[..|w| - 1]) + Payload(w[|w| - 1])
  }

  function Payload(f: Frame): seq<seq<byte>> {
    if f.from == DeviceSide && f.ext.Some? && f.ext.value.pktType == BulkIn then [f.data] else []
  }

  /** How many announcements of EP1 the device has put on the link. */
  function Announced(w: seq<Frame>): nat {
    if w == [] then 0 else Announced(w[..|w| - 1]) + if Announces(w[|w| - 1]) then 1 else 0
  }

  predicate Announces(f: Frame) {
    f.ext.Some? && Carries(f, DeviceSide, TpErdy, f.ext.value.devAddr, 1, DeviceToHost, Control, [1, 0, 0, 0])
  }

  lemma LinkSnoc(w: seq<Frame>, f: Frame)
    ensures HandedOn(w + [f]) == HandedOn(w) + Payload(f)
    ensures Announced(w + [f]) == Announced(w) + if Announces(f) then 1 else 0
  {
    assert (w + [f])[..|w|] == w;
  }

  lemma LinkGrows(w: seq<Frame>, w': seq<Frame>)
    requires |w'| == |w| + 1 && w'[..|w|] == w
    ensures HandedOn(w') == HandedOn(w) + Payload(w'[|w|])
    ensures Announced(w') == Announced(w) + if Announces(w'[|w|]) then 1 else 0
  {
    assert w' == w + [w'[|w|]];
    LinkSnoc(w, w'[|w|]);
  }

  lemma AnswerLeaves(n: Net, e: Ext, f: Frame)
    requires Answered(n, e) && AnswerIs(n, e, f)
    ensures Payload(f) == (if e.pktType == BulkIn then [n.dev.ep1.buffer] else []) && !Announces(f)
  {
    hide Cut;
  }

  lemma ReceivedLeaves(n: Net, p: Packet)
    ensures var m := Received(n, p);
            && n.dev.delivered <= m.dev.delivered
            && HandedOn(m.wire) == HandedOn(n.wire) + m.dev.delivered[|n.dev.delivered|..]
            && Announced(m.wire) == Announced(n.wire)
  {
    hide Received;
    hide HandedOn;
    hide Announced;
    hide Announces;
    hide AnswerIs;
    ReceivedDevice(n, p);
    if DeviceListens(n) && p.ext.Some? {
      LinkAnswered(n, p);
      if Answered(n, p.ext.value) {
        LinkGrows(n.wire, Received(n, p).wire);
        AnswerLeaves(n, p.ext.value, Received(n, p).wire[|n.wire|]);
      }
    } else {
      LinkUnanswered(n, p);
    }
  }

  lemma SentLeaves(n: Net, e: Ext, data: seq<byte>)
    ensures var m := Sent(n, HostSide, e, data);
            && n.dev.delivered <= m.dev.delivered
            && HandedOn(m.wire) == HandedOn(n.wire) + m.dev.delivered[|n.dev.delivered|..]
            && Announced(m.wire) == Announced(n.wire)
  {
    hide Sent;
    hide HandedOn;
    hide Announced;
    hide PeerReply;
    SentDevice(n, HostSide, e, data);
    SentWire(n, HostSide, e, data);
    var w := Sent(n, HostSide, e, data).wire;
    var own := Frame(HostSide, Some(Stamped(n, e)), data);
    LinkSnoc(n.wire, own);
    if Bounces(n, e) {
      assert w == n.wire + [own] + [w[|n.wire| + 1]];
      LinkSnoc(n.wire + [own], w[|n.wire| + 1]);
    }
  }

  lemma CopyLeaves(n: Net)
    ensures var m := Copied(n);
            && HandedOn(m.wire) == HandedOn(n.wire) && m.dev.delivered == n.dev.delivered
            && Announced(m.wire) == Announced(n.wire) + if Copies(n) then 1 else 0
  {
    hide HandedOn;
    hide Announced;
    CopyWire(n);
    if Copies(n) { LinkGrows(n.wire, Copied(n).wire); }
  }

  /** A copy of the thread from EP2 to EP1. */
  predicate Copying(s: State, a: Action) { a.RunCopy? && s.pc.AwaitOut? && Copies(s.net) }

  lemma StepLeaves(s: State, a: Action)
    requires HandedOn(s.net.wire) == s.net.dev.delivered
    ensures HandedOn(Step(s, a).net.wire) == Step(s, a).net.dev.delivered
    ensures Announced(Step(s, a).net.wire) == Announced(s.net.wire) + if Copying(s, a) then 1 else 0
  {
    hide HandedOn;
    hide Announced;
    hide Received;
    hide Sent;
    hide Copied;
    match a {
      case FromLink(p) => ReceivedLeaves(s.net, p);
      case HostSends(e, data) => SentLeaves(s.net, e, data);
      case HostSendsBare(data) => LinkSnoc(s.net.wire, Frame(HostSide, None, data));
      case RunCopy => CopyLeaves(s.net);
      case _ =>
    }
  }

  function CopiesMade(t: seq<State>, a: seq<Action>, n: nat): nat
    requires |t| == |a| + 1 && n <= |a|
  {
    if n == 0 then 0 else CopiesMade(t, a, n - 1) + if Copying(t[n - 1], a[n - 1]) then 1 else 0
  }

  /** The payloads taken out of EP1 are the payloads the device has put on the link, in order, and
      each copy has put one announcement there. */
  lemma {:induction false} DeliveredIsHandedOn(t: seq<State>, a: seq<Action>, n: nat)
    requires Run(t, a) && n < |t|
    ensures |t| == |a| + 1 && HandedOn(t[n].net.wire) == t[n].net.dev.delivered
    ensures Announced(t[n].net.wire) == CopiesMade(t, a, n)
  {
    if n == 0 {
      assert |t| == |a| + 1;
    } else {
      hide Run;
      hide Step;
      hide Copying;
      RunStep(t, a, n - 1);
      DeliveredIsHandedOn(t, a, n - 1);
      StepLeaves(t[n - 1], a[n - 1]);
    }
  }
}
