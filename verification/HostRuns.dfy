/** The host machine's theorems, over every run: any interleaving of the host thread, the copy
    thread and an environment that switches enable and role, queues transfers and lets time
    pass as it likes. */
module HostRuns {
  import opened Kernel
  import opened UsbTypes
  import opened Descriptors
  import opened Transport
  import opened TransportProps
  import opened HostMachine
  import opened HostProps
  import opened Enumeration

  // ----- numbering -----

  lemma SendSetupNumbers(s: State, r: Request)
    requires Numbered(s.net)
    ensures Numbered(SendSetup(s, r).net)
  {
    SendingNumbers(s.net, HostSide, ControlExt(s, Setup, r).(setup := RequestPacket(r)), Packed(RequestPacket(r)));
    hide Sent;
  }

  lemma SendStatusNumbers(s: State, r: Request)
    requires Numbered(s.net)
    ensures Numbered(SendStatus(s, r).net)
  {
    SendingNumbers(s.net, HostSide, ControlExt(s, CtrlStatus, r), [0]);
    hide Sent;
  }

  lemma RingNumbers(s: State)
    requires Numbered(s.net)
    ensures Numbered(RingTop(s).net)
  {
    hide Sent;
    if s.enable.cur && s.ring != [] {
      SendingNumbers(s.net, HostSide, TrbExt(s.ring[0]), TrbData(s.ring[0]));
    }
  }

  lemma AfterRequestNumbers(s: State, r: Request, ok: bool)
    requires Numbered(s.net)
    ensures Numbered(AfterRequest(s, r, ok).net)
  {
    hide SendSetup;
    hide RingTop;
    RingNumbers(s);
    match r {
      case GetDevice => SendSetupNumbers(LearnIds(s), SetAddress(s.nextAddr));
      case GetConfig => SendSetupNumbers(LearnConfig(s), GetBos);
      case GetBos => SendSetupNumbers(s, SetConfig);
      case _ =>
    }
  }

  lemma KeepsNumbered(s: State, a: Action)
    requires Numbered(s.net)
    ensures Numbered(Step(s, a).net)
  {
    hide SendSetup;
    hide SendStatus;
    hide RingTop;
    hide AfterRequest;
    if a.RunHost? {
      var w := Wake(s);
      assert Numbered(w.net);
      hide Wake;
      match w.pc {
        case Start | AwaitEnable => SendSetupNumbers(Begun(w), GetDevice);
        case SetupSent(r, _) => SendStatusNumbers(w, r);
        case StatusSent(r, ok, _) => AfterRequestNumbers(w, r, ok);
        case Settling(_) => SendSetupNumbers(ConfigAsked(w), GetConfig);
        case EnumPulse(_) | AwaitRing | TrbPulse(_) => RingNumbers(w);
      }
    } else if a.RunCopy? {
      CopyingNumbers(s.net);
      hide Copied;
    }
  }

  // ----- the invariant -----

  ghost predicate Inv(s: State) {
    && Conserved(s) && NoLostWakeup(s) && AnswersCollected(s) && Refines(s)
    && Pulses(s) && Learning(s) && Addressed(s) && Numbered(s.net)
  }

  lemma ResetInv(devRom: Rom, peerRom: Rom)
    ensures Inv(Reset(devRom, peerRom))
  {}

  lemma KeepsInv(s: State, a: Action)
    requires Inv(s) && Enabled(s, a)
    ensures Inv(Step(s, a))
  {
    hide Step;
    hide Enabled;
    hide Conserved;
    hide NoLostWakeup;
    hide AnswersCollected;
    hide Refines;
    hide Learning;
    hide Addressed;
    hide Numbered;
    KeepsConserved(s, a);
    KeepsNoLostWakeup(s, a);
    KeepsAnswersCollected(s, a);
    KeepsRefines(s, a);
    KeepsPulses(s, a);
    KeepsLearning(s, a);
    KeepsAddressed(s, a);
    KeepsNumbered(s, a);
  }

  lemma {:induction false} Always(t: seq<State>, a: seq<Action>, i: nat)
    requires Run(t, a) && i < |t|
    ensures Inv(t[i])
  {
    hide Inv;
    hide Reset;
    hide Step;
    hide Enabled;
    if i == 0 {
      var devRom, peerRom :| t[0] == Reset(devRom, peerRom);
      ResetInv(devRom, peerRom);
    } else {
      Always(t, a, i - 1);
      KeepsInv(t[i - 1], a[i - 1]);
    }
  }

  lemma RunLength(t: seq<State>, a: seq<Action>)
    requires Run(t, a)
    ensures |t| == |a| + 1
  {
    hide Enabled;
    hide Step;
    hide Reset;
  }

  lemma RunStep(t: seq<State>, a: seq<Action>, i: nat)
    requires Run(t, a) && i < |a|
    ensures |t| == |a| + 1 && Enabled(t[i], a[i]) && t[i + 1] == Step(t[i], a[i])
  {
    hide Enabled;
    hide Step;
    hide Reset;
  }

  // ----- transfers -----

  /** What software has asked for, in order. */
  function Requests(a: seq<Action>): (q: seq<Action>)
    ensures forall k | 0 <= k < |q| :: q[k].SubmitOut? || q[k].SubmitIn?
  {
    if a == [] then []
    else
      var x := a[|a| - 1];
      Requests(a[..|a| - 1]) + if x.SubmitOut? || x.SubmitIn? then [x] else []
  }

  /** The transfer is the one software asked for: its payload or its length, whole, to that device
      and endpoint, in that direction. */
  predicate MadeFrom(t: Trb, x: Action) {
    match x
    case SubmitOut(addr, ep, data) =>
      && t.payload == data && t.length == |data| % 0x1_0000_0000
      && t.devAddr == addr && t.endpoint == ep && t.direction == HostToDevice
    case SubmitIn(addr, ep, len) =>
      && t.payload == [] && t.length == len % 0x1_0000_0000
      && t.devAddr == addr && t.endpoint == ep && t.direction == DeviceToHost
    case _ => false
  }

  predicate AllMade(ts: seq<Trb>, xs: seq<Action>) {
    |ts| == |xs| && forall k | 0 <= k < |ts| :: MadeFrom(ts[k], xs[k])
  }

  ghost predicate SameRecord(s: State, s': State) {
    && s'.log.enqueued == s.log.enqueued && s'.log.highNs == s.log.highNs && s'.log.rises == s.log.rises
    && s'.xferDone.cur == s.xferDone.cur
  }

  lemma ExecuteLogs(s: State)
    requires s.ring != []
    ensures SameRecord(s, ExecuteHead(s))
  {
    hide Sent;
  }

  lemma WakeLogs(s: State)
    ensures SameRecord(s, Wake(s))
  {}

  /** The thread's own runs leave what the kernel and the environment record alone. */
  lemma RunLogs(s: State)
    ensures SameRecord(s, Resume(s))
  {
    hide Wake;
    hide Continue;
    hide ExecuteHead;
    var w := Wake(s);
    WakeLogs(s);
    ContinueBulk(w);
    if ReachesHead(w) { ExecuteLogs(w); }
  }

  lemma StepLogs(s: State, a: Action)
    requires Enabled(s, a)
    ensures var q, q' := s.log.enqueued, Step(s, a).log.enqueued;
            if a.SubmitOut? || a.SubmitIn? then |q'| == |q| + 1 && q'[..|q|] == q && MadeFrom(q'[|q|], a)
            else q' == q
    ensures Step(s, a).log.highNs == s.log.highNs + if a.DoAdvance? && s.xferDone.cur then a.d else 0
    ensures Step(s, a).log.rises == s.log.rises + if !s.xferDone.cur && Step(s, a).xferDone.cur then 1 else 0
  {
    hide Resume;
    hide Copied;
    RunLogs(s);
  }

  lemma {:induction false} EnqueuedIsRequested(t: seq<State>, a: seq<Action>, i: nat)
    requires Run(t, a) && i < |t|
    ensures AllMade(t[i].log.enqueued, Requests(a[..i]))
  {
    hide Step;
    hide Enabled;
    hide MadeFrom;
    if i > 0 {
      EnqueuedIsRequested(t, a, i - 1);
      StepLogs(t[i - 1], a[i - 1]);
      assert a[..i][..i - 1] == a[..i - 1];
    }
  }

  /** Nothing asked for is lost, repeated, reordered or altered: across role flips, disabling and
      re-enumeration, what has run and what still waits is exactly what software asked for; and
      software may ask as long as fewer than 256 wait. */
  lemma TransfersConserved(t: seq<State>, a: seq<Action>, i: nat)
    requires Run(t, a) && i < |t|
    ensures AllMade(Trbs(t[i].log.executed) + t[i].ring, Requests(a[..i]))
    ensures |t[i].ring| <= 256
    ensures forall addr, ep, data :: Enabled(t[i], SubmitOut(addr, ep, data)) <==> |t[i].ring| < 256
    ensures forall addr, ep, len :: Enabled(t[i], SubmitIn(addr, ep, len)) <==> |t[i].ring| < 256
  {
    hide AllMade;
    Always(t, a, i);
    EnqueuedIsRequested(t, a, i);
  }

  /** A transfer runs only with enable seen high in the same uninterrupted run of the thread,
      only after an enumeration has succeeded, and only from the head of the ring. */
  lemma TransfersRunEnabled(t: seq<State>, a: seq<Action>, i: nat)
    requires Run(t, a) && i < |a| && t[i + 1].log.executed != t[i].log.executed
    ensures a[i] == RunHost && t[i].enable.cur && t[i].ring != []
    ensures t[i].info.enumerated && t[i].net.peer.configured
    ensures t[i + 1].log.executed == t[i].log.executed + [Execution(t[i].ring[0], t[i].net.role)]
  {
    hide Continue;
    hide Wake;
    Always(t, a, i);
    ExecutesHeadUnderEnable(t[i], a[i]);
    WakeEffect(t[i]);
    ContinueBulk(Wake(t[i]));
  }

  /** A thread blocked on the ring with something in it has a wakeup pending, and the next
      update phase makes it runnable; a thread blocked on enable has enable low. */
  lemma NoWakeupIsLost(t: seq<State>, a: seq<Action>, i: nat)
    requires Run(t, a) && i < |t| && !t[i].ready
    ensures t[i].pc.AwaitRing? && t[i].ring != [] ==>
              t[i].ringEvent && forall role, on :: Delta(t[i], role, on).ready
    ensures t[i].pc.AwaitEnable? ==>
              !t[i].enable.cur && forall role, on :: Delta(t[i], role, on).ready <==> t[i].enable.next
    ensures Timed(t[i].pc) ==> t[i].now < t[i].pc.due
  {
    Always(t, a, i);
  }

  // ----- the bulk path -----

  /** One transfer as software sees it: an OUT fills the slot; an IN empties it, into the receive
      buffer if the answer came to the host. */
  function Echoed(r: Register, x: Action, role: Role): Register {
    match x
    case SubmitOut(_, _, data) => Register(data, r.rx)
    case _ => Register([], if role == Host && r.slot != [] then r.slot else r.rx)
  }

  /** What the first n requests leave behind, each carried in its role. */
  function EchoedAll(xs: seq<Action>, ran: seq<Execution>, n: nat): Register
    requires n <= |ran| && n <= |xs|
  {
    if n == 0 then Register([], []) else Echoed(EchoedAll(xs, ran, n - 1), xs[n - 1], ran[n - 1].role)
  }

  lemma {:induction false} EchoIsRegister(xs: seq<Action>, ran: seq<Execution>, n: nat)
    requires n <= |ran| && n <= |xs|
    requires forall k | 0 <= k < n :: MadeFrom(ran[k].trb, xs[k])
    ensures ApplyAll(ran[..n]) == EchoedAll(xs, ran, n)
  {
    if n > 0 {
      EchoIsRegister(xs, ran, n - 1);
      assert ran[..n][..n - 1] == ran[..n - 1];
      assert MadeFrom(ran[n - 1].trb, xs[n - 1]);
    }
  }

  /** In every run, whatever the role does, the peer's buffer and the host's receive buffer are
      those of a one-slot register driven by the requests carried out so far; no answer is ever
      pending between transfers. */
  lemma BulkRefinesRegister(t: seq<State>, a: seq<Action>, i: nat)
    requires Run(t, a) && i < |t|
    ensures |t[i].log.executed| <= |Requests(a[..i])|
    ensures Register(t[i].net.peer.slot, t[i].rxBuf)
         == EchoedAll(Requests(a[..i]), t[i].log.executed, |t[i].log.executed|)
    ensures t[i].net.respValid ==> t[i].pc.SetupSent? && Reads(t[i].pc.req)
  {
    hide Run;
    hide MadeFrom;
    RunLength(t, a);
    Always(t, a, i);
    TransfersConserved(t, a, i);
    var ran, xs := t[i].log.executed, Requests(a[..i]);
    var all := Trbs(ran) + t[i].ring;
    forall k | 0 <= k < |ran| ensures MadeFrom(ran[k].trb, xs[k]) { assert MadeFrom(all[k], xs[k]); }
    EchoIsRegister(xs, ran, |ran|);
    assert ran[..|ran|] == ran;
  }

  /** What software passes to a bulk OUT comes back whole: if the last two requests carried out are
      an OUT of some data and an IN carried as host, the receive buffer holds that data. */
  lemma EchoReturns(t: seq<State>, a: seq<Action>, i: nat)
    requires Run(t, a) && i < |t|
    requires var k, xs := |t[i].log.executed|, Requests(a[..i]);
             2 <= k <= |xs| && xs[k - 2].SubmitOut? && xs[k - 2].data != []
             && xs[k - 1].SubmitIn? && t[i].log.executed[k - 1].role == Host
    ensures t[i].rxBuf == Requests(a[..i])[|t[i].log.executed| - 2].data && t[i].net.peer.slot == []
  {
    hide Run;
    RunLength(t, a);
    BulkRefinesRegister(t, a, i);
    var k, xs, ran := |t[i].log.executed|, Requests(a[..i]), t[i].log.executed;
    assert EchoedAll(xs, ran, k) == Echoed(EchoedAll(xs, ran, k - 1), xs[k - 1], ran[k - 1].role);
    assert EchoedAll(xs, ran, k - 1) == Echoed(EchoedAll(xs, ran, k - 2), xs[k - 2], ran[k - 2].role);
  }

  // ----- completion -----

  /** How long transfer_done was high in the first n steps, read off the run. */
  function HighTime(t: seq<State>, a: seq<Action>, n: nat): nat
    requires |t| == |a| + 1 && n <= |a|
  {
    if n == 0 then 0
    else HighTime(t, a, n - 1) + if a[n - 1].DoAdvance? && t[n - 1].xferDone.cur then a[n - 1].d else 0
  }

  /** How often transfer_done rose in the first n steps. */
  function Edges(t: seq<State>, n: nat): nat
    requires n < |t|
  {
    if n == 0 then 0
    else Edges(t, n - 1) + if !t[n - 1].xferDone.cur && t[n].xferDone.cur then 1 else 0
  }

  lemma {:induction false} LogsAreHistory(t: seq<State>, a: seq<Action>, i: nat)
    requires Run(t, a) && i < |t|
    ensures t[i].log.highNs == HighTime(t, a, i)
    ensures t[i].log.rises == Edges(t, i)
  {
    hide Step;
    hide Enabled;
    if i > 0 {
      LogsAreHistory(t, a, i - 1);
      StepLogs(t[i - 1], a[i - 1]);
    }
  }

  /** transfer_done is high for one nanosecond per executed transfer, what is left of a pulse in
      progress included, and it rises once per burst, a rise about to show included: transfers
      whose pulses touch share one edge. */
  lemma CompletionAccounting(t: seq<State>, a: seq<Action>, i: nat)
    requires Run(t, a) && i < |t|
    ensures HighTime(t, a, i) + (if t[i].pc.TrbPulse? then t[i].pc.due - t[i].now else 0)
         == |t[i].log.executed|
    ensures |t[i].log.starts| == |t[i].log.executed| <= |t[i].log.ends| + 1
    ensures Edges(t, i) + (if Rises(t[i].xferDone) then 1 else 0) == Bursts(t[i].log.starts, t[i].log.ends)
  {
    hide Run;
    Always(t, a, i);
    LogsAreHistory(t, a, i);
  }

  // ----- enumeration -----

  /** Whenever a device counts as enumerated, its configuration is 1, the peer agrees, and the
      ids on record are the peer's exactly when the first request was answered to the host. */
  lemma EnumerationCorrect(t: seq<State>, a: seq<Action>, i: nat)
    requires Run(t, a) && i < |t| && t[i].info.enumerated
    ensures t[i].info.activeConfig == 1 && t[i].net.peer.configured
    ensures var d := t[i].net.peer.rom.dev;
            (t[i].info.vendorId, t[i].info.productId, t[i].info.numConfigs) ==
            if t[i].log.begunAs == Host then (d.idVendor, d.idProduct, d.bNumConfigurations) else (0, 0, 0)
  {
    Always(t, a, i);
  }

  lemma ResumeAdvances(s: State)
    requires Enumerating(s.pc) && !s.pc.EnumPulse? && (s.pc.StatusSent? ==> s.pc.ok)
    ensures var s' := Resume(s);
            && Enumerating(s'.pc) && Offset(s'.pc) > Offset(s.pc)
            && (Offset(s.pc) < 2_014_000 ==> Offset(s'.pc) <= 2_014_000)
            && s'.log.begunAt == s.log.begunAt && s'.log.begunAs == s.log.begunAs
  {
    hide Sent;
    match s.pc {
      case SetupSent(_, _) =>
      case StatusSent(r, _, _) =>
        match r {
          case GetDevice => case SetAddress(_) => case GetConfig => case GetBos => case SetConfig =>
        }
      case Settling(_) =>
    }
  }

  /** An enumeration cannot fail or stall: each time the thread runs it moves to a later wait of
      the same enumeration, and its completion pulse ends 2 035 010 ns after it began. */
  lemma EnumerationAdvances(t: seq<State>, a: seq<Action>, i: nat)
    requires Run(t, a) && i < |t| && Enumerating(t[i].pc)
    ensures t[i].ready ==> t[i].now == t[i].log.begunAt + Offset(t[i].pc)
    ensures t[i].ready && !t[i].pc.EnumPulse? ==>
              var s' := Resume(t[i]);
              Enumerating(s'.pc) && s'.log.begunAt == t[i].log.begunAt && Offset(s'.pc) > Offset(t[i].pc)
    ensures t[i].pc.EnumPulse? ==> t[i].info.enumerated && t[i].pc.due == t[i].log.begunAt + 2_035_010
  {
    Always(t, a, i);
    assert Timely(t[i]) && Learning(t[i]);
    hide Pulses;
    hide Inv;
    hide Run;
    if t[i].ready && !t[i].pc.EnumPulse? { ResumeAdvances(t[i]); }
    hide Resume;
  }

  // ----- addresses -----

  /** From the end of Set Address on, until the device is forgotten, the host has its address on record. */
  predicate Recorded(s: State) {
    s.info.enumerated || (Enumerating(s.pc) && !FirstRequest(s.pc) && !Assigning(s.pc))
  }

  /** After k Set Address requests the peer holds k mod 128; as soon as the last is recorded, the
      host and the address output hold k mod 256. */
  lemma AddressesAgree(t: seq<State>, a: seq<Action>, i: nat)
    requires Run(t, a) && i < |t|
    ensures var k := AddressesSent(t[i].net.wire);
            && t[i].net.peer.addr == k % 128
            && (Recorded(t[i]) ==> t[i].info.addr == k % 256)
            && (!Assigning(t[i].pc) ==> t[i].addrOut.next == k % 256)
  {
    Always(t, a, i);
  }

  /** The peer keeps seven bits and the host eight, so a recorded address is the peer's if and
      only if the number of requests is below 128 modulo 256. */
  lemma AddressesAgreeIff(t: seq<State>, a: seq<Action>, i: nat)
    requires Run(t, a) && i < |t| && Recorded(t[i])
    ensures t[i].info.addr == t[i].net.peer.addr <==> AddressesSent(t[i].net.wire) % 256 < 128
  {
    AddressesAgree(t, a, i);
    SameAddress(AddressesSent(t[i].net.wire));
  }

  /** While fewer than 128 have been sent, a recorded address is non-zero, the peer's, and not
      one recorded before. */
  lemma FirstAddressesDistinct(t: seq<State>, a: seq<Action>, i: nat, j: nat)
    requires Run(t, a) && i < |t| && j < |t| && Recorded(t[i]) && Recorded(t[j])
    requires AddressesSent(t[i].net.wire) < AddressesSent(t[j].net.wire) < 128
    ensures t[j].info.addr == t[j].net.peer.addr != 0
    ensures t[i].info.addr != t[j].info.addr
  {
    hide Run;
    hide AddressesSent;
    hide Recorded;
    AddressesAgree(t, a, i);
    AddressesAgree(t, a, j);
  }

  // ----- numbering -----

  /** On the wire of every run the k-th numbered packet carries k mod 2^32, so any 2^32
      consecutive ones differ. */
  lemma PacketsNumbered(t: seq<State>, a: seq<Action>, i: nat, j: nat, k: nat)
    requires Run(t, a) && i < |t| && j < k < |Numbers(t[i].net.wire)|
    ensures Numbers(t[i].net.wire)[k] == k % TWO32
    ensures k - j < TWO32 ==> Numbers(t[i].net.wire)[j] != Numbers(t[i].net.wire)[k]
  {
    Always(t, a, i);
    if k - j < TWO32 { NumbersDistinct(t[i].net, j, k); }
  }
}
