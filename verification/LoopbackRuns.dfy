/** What the loopback keeps of the payloads it accepts, over every run. */
module LoopbackRuns {
  import opened Kernel
  import opened UsbTypes
  import opened Transport
  import opened TransportProps
  import opened Loopback
  import opened LoopbackWire

  // ----- subsequences -----

  /** x is y with some elements left out. */
  ghost predicate Subseq<T>(x: seq<T>, y: seq<T>) {
    if x == [] then true
    else if y == [] then false
    else
      var m, n := |x| - 1, |y| - 1;
      (x[m] == y[n] && Subseq(x[..m], y[..n])) || Subseq(x, y[..n])
  }

  lemma {:induction false} SubseqDropLast<T>(x: seq<T>, y: seq<T>)
    requires x != [] && Subseq(x, y)
    ensures Subseq(x[..|x| - 1], y)
  {
    var n := |y| - 1;
    if Subseq(x, y[..n]) {
      SubseqDropLast(x, y[..n]);
    } else {
      SubseqGrow(x[..|x| - 1], y[..n], y[n]);
      assert y[..n] + [y[n]] == y;
    }
  }

  lemma SubseqGrow<T>(x: seq<T>, y: seq<T>, e: T)
    requires Subseq(x, y)
    ensures Subseq(x, y + [e])
  {
    assert (y + [e])[..|y|] == y;
  }

  lemma SubseqAppend<T>(x: seq<T>, y: seq<T>, e: T)
    requires Subseq(x, y)
    ensures Subseq(x + [e], y + [e])
  {
    assert (y + [e])[..|y|] == y && (x + [e])[..|x|] == x;
  }

  lemma {:induction false} SubseqDropSecond<T>(x: seq<T>, d: T, e: T, y: seq<T>)
    requires Subseq(x + [d, e], y)
    ensures Subseq(x + [e], y)
  {
    var z, n := x + [d, e], |y| - 1;
    if Subseq(z, y[..n]) {
      SubseqDropSecond(x, d, e, y[..n]);
    } else {
      assert z[..|z| - 1] == x + [d];
      SubseqDropLast(x + [d], y[..n]);
      assert (x + [d])[..|x|] == x && (x + [e])[..|x|] == x;
    }
  }

  lemma {:induction false} SubseqShorter<T>(x: seq<T>, y: seq<T>)
    requires Subseq(x, y)
    ensures |x| <= |y|
    ensures |x| == |y| ==> x == y
  {
    if x != [] {
      var m, n := |x| - 1, |y| - 1;
      if x[m] == y[n] && Subseq(x[..m], y[..n]) {
        SubseqShorter(x[..m], y[..n]);
        assert x == x[..m] + [x[m]] && y == y[..n] + [y[n]];
      } else {
        SubseqShorter(x, y[..n]);
      }
    }
  }

  // ----- the invariant of the device block -----

  function Slot(f: Fifo): seq<seq<byte>> { if f.hasData then [f.buffer] else [] }

  /** Payloads handed on, then the one ready to go, then the one waiting to be copied. */
  function Through(d: DeviceState): seq<seq<byte>> { d.delivered + Slot(d.ep1) + Slot(d.ep2) }

  ghost predicate Ordered(d: DeviceState) {
    && Subseq(Through(d), d.accepted)
    && (d.ep2.hasData ==> d.accepted != [] && d.accepted[|d.accepted| - 1] == d.ep2.buffer)
    && |Through(d)| + d.lost == |d.accepted|
    && (d.ep1.hasData ==> d.configured)
  }

  lemma OutKeepsOrder(d: DeviceState, data: seq<byte>)
    requires Ordered(d)
    ensures Ordered(OutLanded(d, data))
  {
    var x := d.delivered + Slot(d.ep1);
    if d.ep2.hasData {
      SubseqDropLast(Through(d), d.accepted);
      assert Through(d)[..|Through(d)| - 1] == x;
    } else {
      assert Through(d) == x;
    }
    SubseqAppend(x, d.accepted, data);
  }

  lemma InKeepsOrder(d: DeviceState)
    requires Ordered(d) && d.ep1.hasData
    ensures Ordered(InTaken(d))
  {
    assert Through(InTaken(d)) == Through(d);
  }

  lemma CopyKeepsOrder(n: Net)
    requires Ordered(n.dev)
    ensures Ordered(Copied(n).dev)
  {
    var d, d' := n.dev, Copied(n).dev;
    if Copies(n) {
      assert Through(d') == d.delivered + [d.ep2.buffer];
      if d.ep1.hasData {
        assert Through(d) == d.delivered + [d.ep1.buffer, d.ep2.buffer];
        SubseqDropSecond(d.delivered, d.ep1.buffer, d.ep2.buffer, d.accepted);
      } else {
        assert Through(d) == Through(d');
      }
    }
  }

  lemma MoveKeepsOrder(d: DeviceState, m: Move)
    requires Ordered(d) && (m.Taken? ==> d.ep1.hasData)
    ensures Ordered(Moved(d, m))
  {
    match m {
      case Landed(data) => OutKeepsOrder(d, data);
      case Taken => InKeepsOrder(d);
      case _ => assert Through(Moved(d, m)) == Through(d);
    }
  }

  lemma StepKeepsOrder(s: State, a: Action)
    requires Ordered(s.net.dev) && Enabled(s, a)
    ensures Ordered(Step(s, a).net.dev)
  {
    hide Received;
    hide Sent;
    hide Copied;
    hide Moved;
    match a {
      case FromLink(p) => ReceivedDevice(s.net, p); MoveKeepsOrder(s.net.dev, LinkMove(s.net, p));
      case HostSends(e, data) => SentDevice(s.net, HostSide, e, data); MoveKeepsOrder(s.net.dev, SendMove(s.net, e));
      case RunCopy => CopyKeepsOrder(s.net);
      case _ =>
    }
  }

  lemma {:induction false} AlwaysOrdered(t: seq<State>, a: seq<Action>, i: nat)
    requires Run(t, a) && i < |t|
    ensures Ordered(t[i].net.dev)
  {
    hide Step;
    hide Enabled;
    if i > 0 {
      AlwaysOrdered(t, a, i - 1);
      StepKeepsOrder(t[i - 1], a[i - 1]);
      hide Ordered;
    }
  }

  // ----- order and loss -----

  /** Over every interleaving, the payloads the device has put on the link, then EP1, then EP2, are
      those that arrived with some left out: nothing is repeated, reordered or mixed. A full EP2
      holds the payload that arrived last. */
  lemma OrderPreserved(t: seq<State>, a: seq<Action>, i: nat)
    requires Run(t, a) && i < |t|
    ensures |t| == |a| + 1
    ensures var d, arrived := t[i].net.dev, Arrived(t, a, i);
            && Subseq(HandedOn(t[i].net.wire) + Slot(d.ep1) + Slot(d.ep2), arrived)
            && (d.ep2.hasData ==> arrived != [] && arrived[|arrived| - 1] == d.ep2.buffer)
  {
    hide Run;
    AlwaysOrdered(t, a, i);
    AcceptedIsArrived(t, a, i);
    DeliveredIsHandedOn(t, a, i);
  }

  /** The packet lands a payload in EP2. */
  predicate Lands(s: State, a: Action) { |Step(s, a).net.dev.accepted| > |s.net.dev.accepted| }

  /** The move link traffic makes in a step, if the step is one. */
  function StepMove(s: State, a: Action): Move {
    match a
    case FromLink(p) => LinkMove(s.net, p)
    case HostSends(e, _) => SendMove(s.net, e)
    case _ => Still
  }

  lemma StepDevice(s: State, a: Action)
    requires a.FromLink? || a.HostSends?
    ensures Step(s, a).net.dev == Moved(s.net.dev, StepMove(s, a))
    ensures Step(s, a) == s.(net := Step(s, a).net)
  {
    hide Received;
    hide Sent;
    hide Moved;
    hide LinkMove;
    hide SendMove;
    match a {
      case FromLink(p) => ReceivedDevice(s.net, p);
      case HostSends(e, data) => SentDevice(s.net, HostSide, e, data);
    }
  }

  /** A step loses a payload exactly when one lands on a full EP2 or is copied onto a full EP1. */
  lemma LossIsOverwrite(s: State, a: Action)
    requires Enabled(s, a)
    ensures Step(s, a).net.dev.lost == s.net.dev.lost +
              if Lands(s, a) && s.net.dev.ep2.hasData then 1
              else if Copying(s, a) && s.net.dev.ep1.hasData then 1
              else 0
  {
    if a.FromLink? || a.HostSends? {
      StepDevice(s, a);
      hide Step;
    }
  }

  /** A payload lands in a step if and only if the step brings one. */
  lemma LandsIffArriving(t: seq<State>, a: seq<Action>, j: nat)
    requires Run(t, a) && j < |a|
    ensures |t| == |a| + 1 && (Lands(t[j], a[j]) <==> Arriving(t, a, j) != [])
  {
    hide Run;
    hide Step;
    hide Arriving;
    LoopbackWire.RunStep(t, a, j);
    AcceptedIsArrived(t, a, j);
    AcceptedIsArrived(t, a, j + 1);
  }

  /** How many payloads the first n steps wrote over: arrivals that found EP2 full and copies that
      found EP1 full. */
  function Overwrites(t: seq<State>, a: seq<Action>, n: nat): nat
    requires n <= |a| < |t|
  {
    if n == 0 then 0
    else
      var s := t[n - 1];
      Overwrites(t, a, n - 1) +
      if Arriving(t, a, n - 1) != [] && s.net.dev.ep2.hasData then 1
      else if Copying(s, a[n - 1]) && s.net.dev.ep1.hasData then 1
      else 0
  }

  lemma {:induction false} LostIsOverwrites(t: seq<State>, a: seq<Action>, n: nat)
    requires Run(t, a) && n < |t|
    ensures |t| == |a| + 1 && t[n].net.dev.lost == Overwrites(t, a, n)
  {
    if n == 0 {
      assert |t| == |a| + 1;
    } else {
      hide Run;
      hide Step;
      hide Lands;
      hide Arriving;
      LoopbackWire.RunStep(t, a, n - 1);
      LostIsOverwrites(t, a, n - 1);
      LandsIffArriving(t, a, n - 1);
      LossIsOverwrite(t[n - 1], a[n - 1]);
    }
  }

  /** What has gone out, then what is ready to go, then what waits to be copied. */
  function OnItsWay(n: Net): seq<seq<byte>> { HandedOn(n.wire) + Slot(n.dev.ep1) + Slot(n.dev.ep2) }

  /** Nothing that arrived is missing if and only if nothing was ever written over, and exactly as
      many are missing as were. */
  lemma LosslessIffNoOverwrite(t: seq<State>, a: seq<Action>, i: nat)
    requires Run(t, a) && i < |t|
    ensures |t| == |a| + 1
    ensures OnItsWay(t[i].net) == Arrived(t, a, i) <==> Overwrites(t, a, i) == 0
    ensures |Arrived(t, a, i)| - |OnItsWay(t[i].net)| == Overwrites(t, a, i)
  {
    hide Run;
    hide Overwrites;
    AlwaysOrdered(t, a, i);
    AcceptedIsArrived(t, a, i);
    DeliveredIsHandedOn(t, a, i);
    LostIsOverwrites(t, a, i);
    SubseqShorter(Through(t[i].net.dev), t[i].net.dev.accepted);
  }

  /** The driver waits until the block is configured, EP1 has been read, and the copy thread is
      back at its wait with no notification on the way. */
  predicate Disciplined(s: State) {
    && s.net.dev.configured && !s.net.dev.ep1.hasData
    && s.pc.AwaitOut? && !s.ready && !s.net.dev.outPending
  }

  ghost predicate Drained(s: State) {
    && s.net.dev.lost == 0
    && (s.net.dev.ep2.hasData ==>
          s.net.dev.configured && !s.net.dev.ep1.hasData && s.pc.AwaitOut? && (s.ready || s.net.dev.outPending))
  }

  lemma KeepsDrained(s: State, a: Action)
    requires Drained(s) && Enabled(s, a)
    requires Lands(s, a) ==> Disciplined(s)
    ensures Drained(Step(s, a))
  {
    if a.FromLink? || a.HostSends? {
      StepDevice(s, a);
      hide Step;
    }
  }

  lemma {:induction false} AlwaysDrained(t: seq<State>, a: seq<Action>, i: nat)
    requires Run(t, a) && i < |t|
    requires forall j | 0 <= j < i :: Lands(t[j], a[j]) ==> Disciplined(t[j])
    ensures Drained(t[i])
  {
    hide Step;
    hide Enabled;
    if i > 0 {
      AlwaysDrained(t, a, i - 1);
      KeepsDrained(t[i - 1], a[i - 1]);
    }
  }

  /** Under that discipline every payload that arrived is on its way or has gone out, in order, in
      any reachable state. */
  lemma DisciplineIsLossless(t: seq<State>, a: seq<Action>, i: nat)
    requires Run(t, a) && i < |t| == |a| + 1
    requires forall j | 0 <= j < i :: Arriving(t, a, j) != [] ==> Disciplined(t[j])
    ensures OnItsWay(t[i].net) == Arrived(t, a, i)
  {
    hide Run;
    hide Lands;
    hide Arriving;
    hide Disciplined;
    forall j | 0 <= j < i ensures Lands(t[j], a[j]) ==> Disciplined(t[j]) { LandsIffArriving(t, a, j); }
    AlwaysDrained(t, a, i);
    LostIsOverwrites(t, a, i);
    LosslessIffNoOverwrite(t, a, i);
  }

  // ----- the copy interrupt -----

  ghost predicate IrqTimely(s: State) {
    && s.bulkIrq.next == s.pc.CopyPulse?
    && (s.pc.AwaitOut? && s.ready ==> !s.bulkIrq.cur)
    && (s.pc.CopyPulse? ==> s.now <= s.pc.due <= s.now + IRQ_NS && (s.ready <==> s.now == s.pc.due))
    && (s.pc.CopyPulse? && s.now + IRQ_NS > s.pc.due ==> s.bulkIrq.cur)
  }

  function IrqLeft(s: State): int { if s.pc.CopyPulse? then s.pc.due - s.now else 0 }

  lemma IrqStep(s: State, a: Action)
    requires IrqTimely(s) && Enabled(s, a)
    ensures IrqTimely(Step(s, a))
    ensures IrqLeft(Step(s, a)) + (if a.DoAdvance? && s.bulkIrq.cur then a.d else 0)
         == IrqLeft(s) + if Copying(s, a) then IRQ_NS else 0
  {
    hide Received;
    hide Sent;
    hide Copied;
  }

  /** How long bulk_irq was high in the first n steps. */
  function IrqTime(t: seq<State>, a: seq<Action>, n: nat): nat
    requires |t| == |a| + 1 && n <= |a|
  {
    if n == 0 then 0 else IrqTime(t, a, n - 1) + if a[n - 1].DoAdvance? && t[n - 1].bulkIrq.cur then a[n - 1].d else 0
  }

  lemma {:induction false} IrqTimeIsCopies(t: seq<State>, a: seq<Action>, n: nat)
    requires Run(t, a) && n < |t|
    ensures IrqTimely(t[n])
    ensures IrqTime(t, a, n) + IrqLeft(t[n]) == IRQ_NS * CopiesMade(t, a, n)
  {
    hide Step;
    hide Enabled;
    hide Copying;
    if n > 0 {
      IrqTimeIsCopies(t, a, n - 1);
      IrqStep(t[n - 1], a[n - 1]);
      hide IrqTimely;
    }
  }

  /** Every copy from EP2 to EP1 is announced by exactly 10 ns of bulk_irq, what is left of a pulse
      in progress included, and by one ERDY on the link; nothing else is. */
  lemma CopiesAnnounced(t: seq<State>, a: seq<Action>, n: nat)
    requires Run(t, a) && n < |t|
    ensures |t| == |a| + 1
    ensures IrqTime(t, a, n) + (if t[n].pc.CopyPulse? then t[n].pc.due - t[n].now else 0) == 10 * CopiesMade(t, a, n)
    ensures Announced(t[n].net.wire) == CopiesMade(t, a, n)
  {
    hide IrqTimely;
    hide Announced;
    hide CopiesMade;
    hide IrqTime;
    IrqTimeIsCopies(t, a, n);
    DeliveredIsHandedOn(t, a, n);
  }

  // ----- gating and isolation -----

  /** A step changes the device's slots, address or configured flag only as the device, with its
      block on, or by copying; copying leaves address and flag alone, and no step lowers the flag. */
  lemma DeviceChanges(s: State, a: Action)
    requires Enabled(s, a)
    ensures var d, d' := s.net.dev, Step(s, a).net.dev;
            && (!DeviceListens(s.net) && !a.RunCopy? ==>
                  d'.ep2 == d.ep2 && d'.ep1 == d.ep1 && d'.addr == d.addr && d'.configured == d.configured)
            && (a.RunCopy? ==> d'.addr == d.addr && d'.configured == d.configured)
            && (d.configured ==> d'.configured)
  {
    if a.FromLink? || a.HostSends? {
      StepDevice(s, a);
      hide Step;
    }
  }

  /** The device is configured, and outwardly so, if and only if the link has brought a Set
      Configuration while the block listened; its address is the last one asked for so. */
  lemma {:induction false} SettingsAreRequests(t: seq<State>, a: seq<Action>, n: nat)
    requires Run(t, a) && n < |t|
    ensures |t| == |a| + 1
    ensures t[n].net.dev.configured == t[n].net.dev.configuredOut == ConfiguredAsked(a, n)
    ensures t[n].net.dev.addr == AddressAsked(a, n)
  {
    if n == 0 {
      assert |t| == |a| + 1;
    } else {
      hide Run;
      hide Step;
      LoopbackWire.RunStep(t, a, n - 1);
      SettingsAreRequests(t, a, n - 1);
      AcceptedIsArrived(t, a, n - 1);
      StepSettings(t[n - 1], a[n - 1]);
    }
  }

  /** EP1 holds data only after such a request. */
  lemma DataNeedsConfiguration(t: seq<State>, a: seq<Action>, i: nat)
    requires Run(t, a) && i < |t| && t[i].net.dev.ep1.hasData
    ensures |t| == |a| + 1 && ConfiguredAsked(a, i)
  {
    AlwaysOrdered(t, a, i);
    SettingsAreRequests(t, a, i);
    hide Run;
    hide ConfiguredAsked;
  }

  // ----- numbering -----

  lemma StepNumbers(s: State, a: Action)
    requires Numbered(s.net)
    ensures Numbered(Step(s, a).net)
  {
    hide Received;
    hide Sent;
    hide Copied;
    hide SentBare;
    match a {
      case FromLink(p) => ReceivingNumbers(s.net, p);
      case HostSends(e, data) => SendingNumbers(s.net, HostSide, e, data);
      case HostSendsBare(data) => BareKeepsNumbers(s.net, HostSide, data);
      case RunCopy => CopyingNumbers(s.net);
      case _ =>
    }
  }

  lemma {:induction false} AlwaysNumbered(t: seq<State>, a: seq<Action>, i: nat)
    requires Run(t, a) && i < |t|
    ensures Numbered(t[i].net)
  {
    hide Step;
    hide Enabled;
    if i > 0 {
      AlwaysNumbered(t, a, i - 1);
      StepNumbers(t[i - 1], a[i - 1]);
      hide Numbered;
    }
  }

  /** Over any mix of host sends, bare sends and the device's own answers, the k-th numbered
      packet on the wire carries k mod 2^32, and any 2^32 consecutive ones differ. */
  lemma PacketsNumbered(t: seq<State>, a: seq<Action>, i: nat, j: nat, k: nat)
    requires Run(t, a) && i < |t| && j < k < |Numbers(t[i].net.wire)|
    ensures Numbers(t[i].net.wire)[k] == k % TWO32
    ensures k - j < TWO32 ==> Numbers(t[i].net.wire)[j] != Numbers(t[i].net.wire)[k]
  {
    AlwaysNumbered(t, a, i);
    if k - j < TWO32 { NumbersDistinct(t[i].net, j, k); }
  }

  /** A send of another kind, or without metadata, goes out whole, takes no number and provokes
      nothing on the link. */
  lemma PlainSendsKeepCount(s: State, a: Action)
    requires a.HostSendsBare? || (a.HostSends? && !UsesSequence(a.e.pktType))
    ensures Step(s, a).net.seqNum == s.net.seqNum && Numbers(Step(s, a).net.wire) == Numbers(s.net.wire)
    ensures Step(s, a).net.wire ==
            s.net.wire + [Frame(HostSide, if a.HostSends? then Some(a.e) else None, a.data)]
  {
    var w := Step(s, a).net.wire;
    assert w[..|w| - 1] == s.net.wire;
  }
}
