/** What every run of the host machine keeps. */
module HostProps {
  import opened Kernel
  import opened UsbTypes
  import opened Descriptors
  import opened Transport
  import opened TransportProps
  import opened HostMachine

  // ----- which steps touch the bulk path -----

  ghost predicate SameBulk(s: State, s': State) {
    && SameBulkPath(s.net, s'.net)
    && s'.enable == s.enable && s'.rxBuf == s.rxBuf && s'.ring == s.ring
    && s'.log.enqueued == s.log.enqueued && s'.log.executed == s.log.executed
    && s'.log.starts == s.log.starts
  }

  /** An answer waits for the host only between a read request and its collection. */
  ghost predicate AnswersCollected(s: State) {
    s.net.respValid ==> s.pc.SetupSent? && Reads(s.pc.req)
  }

  /** From these waits the thread goes straight to the ring. */
  predicate Rings(pc: Pc) { pc.EnumPulse? || pc.AwaitRing? || pc.TrbPulse? }

  /** A step of the thread that only does control transfers. */
  ghost predicate ControlOnly(s: State, s': State) {
    && SameBulk(s, s') && s'.xferDone == s.xferDone && s'.enumDone.cur == s.enumDone.cur
    && (!s.net.respValid ==> AnswersCollected(s'))
    && s'.log == s.log.(begunAs := s'.log.begunAs, begunAt := s'.log.begunAt, configAs := s'.log.configAs)
    && s'.now == s.now && s'.ready == s.ready && s'.ringEvent == s.ringEvent
    && (Rings(s.pc) ==> s'.pc.AwaitEnable? || s'.pc.AwaitRing?)
  }

  /** The wait a control step ends in: never a completion pulse, timed waits lie ahead, and
      the thread waits for an event only while what the event announces is not there. */
  predicate FreshWait(s: State) {
    && !s.pc.TrbPulse? && !s.pc.Start? && (Timed(s.pc) ==> s.now < s.pc.due)
    && (s.pc.AwaitRing? ==> s.ring == []) && (s.pc.AwaitEnable? ==> !s.enable.cur)
  }

  lemma SendSetupControl(s: State, r: Request)
    ensures !Rings(s.pc) ==> ControlOnly(s, SendSetup(s, r))
    ensures FreshWait(SendSetup(s, r)) && SendSetup(s, r).log == s.log
  {
    hide Sent;
    hide Packed;
    hide PeerReply;
    hide ControlTo;
    hide RequestPacket;
    SetupPackets(s.info.addr, r);
    ControlSend(s.net, HostSide, ControlExt(s, Setup, r).(setup := RequestPacket(r)), Packed(RequestPacket(r)));
  }

  lemma SetupPackets(addr: byte, r: Request)
    ensures ControlTo(addr, Setup, r).pktType == Setup
    ensures Reads(r) <==> RequestPacket(r).bRequest == REQ_GET_DESCRIPTOR
  {}

  lemma SendStatusControl(s: State, r: Request)
    ensures !Rings(s.pc) ==> ControlOnly(s, SendStatus(s, r))
    ensures FreshWait(SendStatus(s, r))
  {
    hide Packed;
    hide PeerReply;
    hide Sent;
    ControlSend(s.net, HostSide, ControlExt(s, CtrlStatus, r), [0]);
  }

  lemma WakeEffect(s: State)
    ensures SameBulk(s, Wake(s)) && Wake(s).pc == s.pc
    ensures Wake(s).xferDone.cur == s.xferDone.cur && Wake(s).enumDone.cur == s.enumDone.cur
    ensures Wake(s).now == s.now
    ensures AnswersCollected(s) ==> !Wake(s).net.respValid
  {}

  /** The thread comes to the ring with enable high and something queued. */
  predicate ReachesHead(s: State) {
    && s.enable.cur && s.ring != []
    && (Rings(s.pc) || (s.pc.StatusSent? && !s.pc.ok && !s.pc.req.GetBos?))
  }

  lemma AfterRequestControl(s: State, r: Request)
    requires !Rings(s.pc)
    ensures ControlOnly(s, AfterRequest(s, r, true)) && FreshWait(AfterRequest(s, r, true))
  {
    match r {
      case GetDevice => SendSetupControl(LearnIds(s), SetAddress(s.nextAddr));
      case SetAddress(_) =>
      case GetConfig => SendSetupControl(LearnConfig(s), GetBos);
      case GetBos => SendSetupControl(s, SetConfig);
      case SetConfig =>
    }
    hide SendSetup;
  }

  lemma FinishedRequestBulk(s: State)
    requires s.pc.StatusSent?
    ensures if ReachesHead(s) then Continue(s) == ExecuteHead(s)
            else ControlOnly(s, Continue(s)) && FreshWait(Continue(s))
  {
    hide ExecuteHead;
    AfterRequestControl(s, s.pc.req);
    if s.pc.ok || s.pc.req.GetBos? {
      assert Continue(s) == AfterRequest(s, s.pc.req, true);
      hide Continue;
      hide AfterRequest;
    }
  }

  /** Running on from a wait executes the oldest transfer or does nothing but control transfers. */
  lemma ContinueBulk(s: State)
    ensures if ReachesHead(s) then Continue(s) == ExecuteHead(s)
            else ControlOnly(s, Continue(s)) && FreshWait(Continue(s))
  {
    hide ExecuteHead;
    hide SendSetup;
    hide SendStatus;
    hide AfterRequest;
    match s.pc {
      case Start | AwaitEnable => SendSetupControl(Begun(s), GetDevice);
      case SetupSent(r, _) => SendStatusControl(s, r);
      case StatusSent(_, _, _) => FinishedRequestBulk(s);
      case Settling(_) => SendSetupControl(ConfigAsked(s), GetConfig);
      case EnumPulse(_) | AwaitRing | TrbPulse(_) =>
    }
  }

  lemma ExecuteKeepsWires(s: State)
    requires s.ring != []
    ensures var s' := ExecuteHead(s);
            && s'.enable == s.enable && s'.now == s.now
            && s'.net.role == s.net.role && s'.net.devEnable == s.net.devEnable
            && s'.xferDone.cur == s.xferDone.cur && s'.enumDone.cur == s.enumDone.cur
  {
    hide Sent;
    SendKeepsRole(s.net, HostSide, TrbExt(s.ring[0]), TrbData(s.ring[0]));
  }

  /** The thread drives none of its inputs, and changes no signal before the update phase. */
  lemma RunKeepsWires(s: State)
    ensures var s' := Resume(s);
            && s'.enable == s.enable && s'.now == s.now
            && s'.net.role == s.net.role && s'.net.devEnable == s.net.devEnable
            && s'.xferDone.cur == s.xferDone.cur && s'.enumDone.cur == s.enumDone.cur
  {
    hide Wake;
    hide Continue;
    hide ExecuteHead;
    hide FreshWait;
    var w := Wake(s);
    WakeEffect(s);
    ContinueBulk(w);
    if ReachesHead(w) { ExecuteKeepsWires(w); }
  }

  // ----- conservation of transfers -----

  function Trbs(x: seq<Execution>): seq<Trb> { seq(|x|, i requires 0 <= i < |x| => x[i].trb) }

  ghost predicate Conserved(s: State) {
    && Trbs(s.log.executed) + s.ring == s.log.enqueued
    && |s.ring| <= RING_DEPTH
  }

  /** A step executes at most one transfer, the oldest, and only with enable seen high. */
  lemma ExecutesHeadUnderEnable(s: State, a: Action)
    requires Enabled(s, a)
    ensures var s' := Step(s, a);
            s'.log.executed != s.log.executed ==>
              && a == RunHost && s.enable.cur && s.ring != []
              && s'.ring == s.ring[1..]
              && s'.log.executed == s.log.executed + [Execution(s.ring[0], s.net.role)]
              && s'.log.enqueued == s.log.enqueued
  {
    hide Sent;
    if a.RunHost? {
      WakeEffect(s);
      ContinueBulk(Wake(s));
      hide Wake;
      hide Continue;
    }
  }

  lemma ExecuteConserves(s: State)
    requires Conserved(s) && s.ring != []
    ensures Conserved(ExecuteHead(s))
  {
    hide TrbExt;
    hide TrbData;
    hide Sent;
    assert Trbs(ExecuteHead(s).log.executed) == Trbs(s.log.executed) + [s.ring[0]];
    assert s.ring == [s.ring[0]] + s.ring[1..];
  }

  lemma KeepsConserved(s: State, a: Action)
    requires Conserved(s) && Enabled(s, a)
    ensures Conserved(Step(s, a))
  {
    if a.RunHost? {
      var w := Wake(s);
      WakeEffect(s);
      ContinueBulk(w);
      hide Wake;
      hide Continue;
      if ReachesHead(w) { ExecuteConserves(w); }
      hide ExecuteHead;
    } else {
      hide Resume;
      hide Copied;
    }
  }

  // ----- wakeups -----

  ghost predicate NoLostWakeup(s: State) {
    && (s.pc.AwaitRing? && !s.ready && s.ring != [] ==> s.ringEvent)
    && (s.pc.AwaitEnable? ==> (s.ready <==> s.enable.cur))
    && (s.pc.Start? ==> s.ready)
  }

  lemma KeepsNoLostWakeup(s: State, a: Action)
    requires NoLostWakeup(s) && Enabled(s, a)
    ensures NoLostWakeup(Step(s, a))
  {
    hide Sent;
    hide Copied;
    if a.RunHost? {
      ContinueBulk(Wake(s));
      hide Wake;
      hide Continue;
    } else {
      hide Resume;
    }
  }

  // ----- answers -----

  lemma KeepsAnswersCollected(s: State, a: Action)
    requires AnswersCollected(s) && Enabled(s, a)
    ensures AnswersCollected(Step(s, a))
  {
    if a.RunHost? {
      var w := Wake(s);
      WakeEffect(s);
      ContinueBulk(w);
      if ReachesHead(w) {
        assert !ExecuteHead(w).net.respValid;
      }
      hide Wake;
      hide Continue;
    } else {
      hide Resume;
    }
  }

  // ----- the one-slot register -----

  /** What software sees of the bulk path: the peer's buffer and the host's receive buffer. */
  datatype Register = Register(slot: seq<byte>, rx: seq<byte>)

  function Apply(r: Register, x: Execution): Register {
    if x.trb.direction == HostToDevice then r.(slot := x.trb.payload)
    else if x.role == Host && r.slot != [] then Register([], r.slot)
    else r.(slot := [])
  }

  function ApplyAll(x: seq<Execution>): Register {
    if x == [] then Register([], [])
    else Apply(ApplyAll(x[..|x| - 1]), x[|x| - 1])
  }

  ghost predicate Refines(s: State) {
    Register(s.net.peer.slot, s.rxBuf) == ApplyAll(s.log.executed)
  }

  lemma ExecuteRefines(s: State)
    requires Refines(s) && !s.net.respValid && s.ring != []
    ensures Refines(ExecuteHead(s))
  {
    var x := ExecuteHead(s).log.executed;
    assert x[..|x| - 1] == s.log.executed;
  }

  lemma KeepsRefines(s: State, a: Action)
    requires Refines(s) && AnswersCollected(s) && Enabled(s, a)
    ensures Refines(Step(s, a))
  {
    hide ApplyAll;
    if a.RunHost? {
      var w := Wake(s);
      assert !w.net.respValid;
      WakeEffect(s);
      ContinueBulk(w);
      hide Wake;
      hide Continue;
      if ReachesHead(w) { ExecuteRefines(w); }
      hide ExecuteHead;
    } else {
      CopyIsolation(s.net);
      hide Copied;
      hide Resume;
    }
  }

  // ----- completion pulses -----

  /** How many pulses did not start in the very update phase the one before ended in. */
  function Bursts(starts: seq<nat>, ends: seq<nat>): nat
    requires |starts| <= |ends| + 1
  {
    var k := |starts|;
    if k == 0 then 0
    else Bursts(starts[..k - 1], ends) + if k == 1 || starts[k - 1] != ends[k - 2] then 1 else 0
  }

  lemma {:induction false} BurstsIgnoreLaterEnds(starts: seq<nat>, ends: seq<nat>, e: nat)
    requires |starts| <= |ends| + 1
    ensures Bursts(starts, ends + [e]) == Bursts(starts, ends)
  {
    if starts != [] { BurstsIgnoreLaterEnds(starts[..|starts| - 1], ends, e); }
  }

  function LastEnd(l: Log): int { if l.ends == [] then -1 else l.ends[|l.ends| - 1] }

  ghost predicate Timely(s: State) {
    Timed(s.pc) ==> s.now <= s.pc.due && (s.ready <==> s.now == s.pc.due)
  }

  ghost predicate Pulses(s: State) {
    var l := s.log;
    && Timely(s)
    && |l.starts| == |l.executed| == |l.ends| + (if s.pc.TrbPulse? then 1 else 0)
    && (s.xferDone.next || s.xferDone.cur ==>
          s.pc.TrbPulse? || (s.xferDone.cur && !s.xferDone.next && !s.ready && !Timed(s.pc)))
    && (s.pc.TrbPulse? ==> s.xferDone.next && s.pc.due - 1 <= s.now && (s.ready ==> s.xferDone.cur))
    && l.highNs + (if s.pc.TrbPulse? then s.pc.due - s.now else 0) == |l.starts|
    && LastEnd(l) <= l.tick
    && (!s.pc.TrbPulse? && (s.ready || Timed(s.pc)) ==> LastEnd(l) < l.tick)
    && l.rises + (if Rises(s.xferDone) then 1 else 0) == Bursts(l.starts, l.ends)
  }

  lemma ExecutePulses(s: State)
    requires s.ring != [] && !s.xferDone.next && |s.log.starts| == |s.log.ends| == |s.log.executed|
    requires s.xferDone.cur <==> LastEnd(s.log) == s.log.tick
    requires s.log.rises == Bursts(s.log.starts, s.log.ends) && s.log.highNs == |s.log.starts|
    requires LastEnd(s.log) <= s.log.tick && !s.ready
    ensures Pulses(ExecuteHead(s))
  {
    hide Sent;
    var l := ExecuteHead(s).log;
    assert l.starts[..|s.log.starts|] == s.log.starts;
  }

  lemma WakePulses(s: State)
    requires Pulses(s) && s.ready
    ensures var w := Wake(s);
            && !w.ready && !w.xferDone.next && (w.xferDone.cur <==> LastEnd(w.log) == w.log.tick)
            && w.xferDone.cur == s.pc.TrbPulse? && LastEnd(w.log) <= w.log.tick
            && |w.log.starts| == |w.log.ends| == |w.log.executed| == w.log.highNs
            && w.log.rises == Bursts(w.log.starts, w.log.ends)
  {
    if s.pc.TrbPulse? { BurstsIgnoreLaterEnds(s.log.starts, s.log.ends, s.log.tick); }
    hide Bursts;
  }

  lemma RunKeepsPulses(s: State)
    requires Pulses(s) && s.ready
    ensures Pulses(Resume(s))
  {
    hide Wake;
    hide Continue;
    hide ExecuteHead;
    hide Bursts;
    var w := Wake(s);
    WakeEffect(s);
    WakePulses(s);
    ContinueBulk(w);
    if ReachesHead(w) { ExecutePulses(w); }
  }

  lemma KeepsPulses(s: State, a: Action)
    requires Pulses(s) && Enabled(s, a)
    ensures Pulses(Step(s, a))
  {
    hide Resume;
    hide Copied;
    if a.RunHost? { RunKeepsPulses(s); }
  }
}
