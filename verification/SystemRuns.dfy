/** The theorems about the whole controller, over every run.

    Step for step, a run of the whole is a run of each part, so every theorem about a part's runs
    is a theorem about the whole; and the wires add what no part has alone. */
module SystemRuns {
  import opened Kernel
  import opened UsbTypes
  import opened Descriptors
  import opened Transport
  import opened TransportProps
  import opened Registers
  import opened SystemMachine
  import R = RoleMachine
  import RR = RoleRuns
  import H = HostMachine
  import HP = HostProps
  import HR = HostRuns
  import L = Loopback
  import I = InterruptMachine
  import IR = InterruptRuns
  import E = Enumeration

  // ----- a run of the whole is a run of each part -----

  function RoleStates(t: seq<State>): seq<R.State> { seq(|t|, i requires 0 <= i < |t| => t[i].r) }

  function RoleActions(a: seq<Action>): seq<R.Action> { seq(|a|, i requires 0 <= i < |a| => RoleAction(a[i])) }

  function HostStates(t: seq<State>): seq<H.State> { seq(|t|, i requires 0 <= i < |t| => t[i].h) }

  function HostActions(t: seq<State>, a: seq<Action>): seq<H.Action>
    requires |a| <= |t|
  {
    seq(|a|, i requires 0 <= i < |a| => HostAction(t[i], a[i]))
  }

  function IrqStates(t: seq<State>): seq<I.State> { seq(|t|, i requires 0 <= i < |t| => t[i].i) }

  function IrqActions(t: seq<State>, a: seq<Action>): seq<I.Action>
    requires |a| <= |t|
  {
    seq(|a|, i requires 0 <= i < |a| => IrqAction(t[i], a[i]))
  }

  lemma RunStep(t: seq<State>, a: seq<Action>, i: nat)
    requires SystemMachine.Run(t, a) && i < |a|
    ensures Enabled(t[i], a[i]) && t[i + 1] == Step(t[i], a[i])
  {
    hide Enabled;
    hide Step;
    hide Reset;
  }

  lemma RunLength(t: seq<State>, a: seq<Action>)
    requires SystemMachine.Run(t, a)
    ensures |t| == |a| + 1
  {
    hide Enabled;
    hide Step;
    hide Reset;
  }

  /** Step for step, a run of the whole is a run of the role subsystem, of the host side, and of
      the interrupt block. */
  lemma PartsRun(t: seq<State>, a: seq<Action>)
    requires SystemMachine.Run(t, a)
    ensures R.Run(RoleStates(t), RoleActions(a))
    ensures H.Run(HostStates(t), HostActions(t, a))
    ensures I.Run(IrqStates(t), IrqActions(t, a))
  {
    hide R.Enabled;
    hide R.Step;
    hide H.Enabled;
    hide H.Step;
    hide H.Reset;
    hide I.Enabled;
    hide I.Step;
    hide CopierEnabled;
    hide CopierAfter;
    hide RoleAction;
    hide HostAction;
    hide IrqAction;
    hide Loop;
    var devRom, peerRom :| t[0] == Reset(devRom, peerRom);
    assert HostStates(t)[0] == H.Reset(devRom, peerRom);
    var rt, ra := RoleStates(t), RoleActions(a);
    var ht, ha := HostStates(t), HostActions(t, a);
    var it, ia := IrqStates(t), IrqActions(t, a);
    forall i | 0 <= i < |a|
      ensures R.Enabled(rt[i], ra[i]) && rt[i + 1] == R.Step(rt[i], ra[i])
      ensures H.Enabled(ht[i], ha[i]) && ht[i + 1] == H.Step(ht[i], ha[i])
      ensures I.Enabled(it[i], ia[i]) && it[i + 1] == I.Step(it[i], ia[i])
    {
      RunStep(t, a, i);
    }
  }

  // ----- the wires -----

  /** What each part is shown is what another drives. */
  ghost predicate Wired(s: State) {
    && s.h.enable == s.r.mon.hostEnable && s.h.now == s.r.now
    && s.h.net.role == s.r.mgr.currentRole.cur && s.h.net.devEnable == s.r.mon.devEnable.cur
    && s.i.roleChanged == s.r.mgr.roleChanged
    && s.i.enumDone == s.h.enumDone && s.i.xferDone == s.h.xferDone && s.i.bulkIrq == s.c.bulkIrq
  }

  lemma ResetWired(devRom: Rom, peerRom: Rom)
    ensures Wired(Reset(devRom, peerRom))
  {}

  lemma HostKeepsWires(s: State)
    requires Wired(s)
    ensures Wired(Step(s, RunHost))
  {
    hide H.Resume;
    HP.RunKeepsWires(s.h);
  }

  lemma CopyKeepsWires(s: State)
    requires Wired(s)
    ensures Wired(Step(s, RunCopy))
  {
    hide Copied;
    CopyIsolation(s.h.net);
  }

  lemma DeltaKeepsWires(s: State)
    requires Wired(s)
    ensures Wired(Step(s, DoDelta))
  {}

  lemma RoleKeepsWires(s: State, a: Action)
    requires Wired(s) && (a.SetInputs? || a.Access? || a.RunManager? || a.RunMonitor?)
    ensures Wired(Step(s, a))
  {
    hide Written;
    hide RoleWritten;
    hide R.Attached;
  }

  lemma OthersKeepWires(s: State, a: Action)
    requires Wired(s) && (a.SubmitOut? || a.SubmitIn? || a.RunCollector? || a.DoAdvance?)
    ensures Wired(Step(s, a))
  {
    hide After;
    hide H.OutTrb;
    hide H.InTrb;
  }

  lemma StepKeepsWires(s: State, a: Action)
    requires Wired(s)
    ensures Wired(Step(s, a))
  {
    hide Step;
    hide Wired;
    match a {
      case RunHost => HostKeepsWires(s);
      case RunCopy => CopyKeepsWires(s);
      case DoDelta => DeltaKeepsWires(s);
      case SetInputs(_, _) | Access(_, _) | RunManager | RunMonitor => RoleKeepsWires(s, a);
      case _ => OthersKeepWires(s, a);
    }
  }

  lemma {:induction false} AlwaysWired(t: seq<State>, a: seq<Action>, i: nat)
    requires SystemMachine.Run(t, a) && i < |t|
    ensures Wired(t[i])
  {
    hide Wired;
    hide Step;
    hide Enabled;
    hide Reset;
    if i == 0 {
      var devRom, peerRom :| t[0] == Reset(devRom, peerRom);
      ResetWired(devRom, peerRom);
    } else {
      AlwaysWired(t, a, i - 1);
      RunStep(t, a, i - 1);
      StepKeepsWires(t[i - 1], a[i - 1]);
    }
  }

  /** The invariants of the parts hold throughout: exclusion and pulses on one side; conservation,
      the one-slot register, accounting, enumeration, addresses and numbering on the other. */
  lemma PartsKeepInvariants(t: seq<State>, a: seq<Action>, i: nat)
    requires SystemMachine.Run(t, a) && i < |t|
    ensures RR.Inv(t[i].r) && HR.Inv(t[i].h)
  {
    PartsRun(t, a);
    RR.Always(RoleStates(t), RoleActions(a), i);
    HR.Always(HostStates(t), HostActions(t, a), i);
    hide RR.Inv;
    hide HR.Inv;
    hide R.Run;
    hide H.Run;
    hide I.Run;
    hide SystemMachine.Run;
  }

  /** The copy thread's part of a step of the whole is its step in the loopback machine, on the
      platform as the whole has it. */
  lemma CopierSteps(s: State, a: Action)
    ensures var l, l' := Loop(s), Loop(Step(s, a));
            match a
            case RunCopy => l' == L.Step(l, L.RunCopy)
            case DoAdvance(d) => l' == L.Step(l, L.DoAdvance(d))
            case DoDelta =>
              var r := Step(s, a).r;
              l' == L.Step(L.Step(l, L.DoDelta), L.SetRole(r.mgr.currentRole.cur, r.mon.devEnable.cur))
            case _ => l' == l.(net := l'.net, now := l'.now)
  {
    hide Copied;
    hide H.Resume;
    hide R.Step;
    hide RoleAction;
    hide IrqAction;
    NoCopy(s.h.net);
  }

  lemma NoCopy(n: Net)
    ensures !Copies(n) ==> Copied(n) == n
  {}

  // ----- transfers and their interrupts in the whole -----

  /** What software has asked for, in order. */
  function Requests(a: seq<Action>): (q: seq<Action>)
    ensures forall k | 0 <= k < |q| :: q[k].SubmitOut? || q[k].SubmitIn?
  {
    if a == [] then []
    else
      var x := a[|a| - 1];
      Requests(a[..|a| - 1]) + if x.SubmitOut? || x.SubmitIn? then [x] else []
  }

  /** The host side is asked for the same. */
  predicate SameRequest(h: H.Action, x: Action) {
    if x.SubmitOut? then h.SubmitOut? && h.devAddr == x.devAddr && h.endpoint == x.endpoint && h.data == x.data
    else x.SubmitIn? && h.SubmitIn? && h.devAddr == x.devAddr && h.endpoint == x.endpoint && h.len == x.len
  }

  lemma {:induction false} RequestsReachHost(t: seq<State>, a: seq<Action>, n: nat)
    requires n <= |a| <= |t|
    ensures var hs, xs := HR.Requests(HostActions(t, a)[..n]), Requests(a[..n]);
            |hs| == |xs| && forall k | 0 <= k < |xs| :: SameRequest(hs[k], xs[k])
  {
    hide SameRequest;
    if n > 0 {
      RequestsReachHost(t, a, n - 1);
      var x := HostActions(t, a)[..n];
      assert x[..|x| - 1] == HostActions(t, a)[..n - 1];
      assert a[..n][..n - 1] == a[..n - 1];
      assert x[n - 1] == HostAction(t[n - 1], a[n - 1]);
      AskedOfHost(t[n - 1], a[n - 1]);
    }
  }

  lemma AskedOfHost(s: State, x: Action)
    ensures var h := HostAction(s, x);
            if x.SubmitOut? || x.SubmitIn? then SameRequest(h, x) && (h.SubmitOut? || h.SubmitIn?)
            else !h.SubmitOut? && !h.SubmitIn?
  {
    hide RoleAfter;
  }

  /** The transfer is the one software asked for: its payload or its length, whole, to that device
      and endpoint, in that direction. */
  predicate MadeFrom(t: H.Trb, x: Action) {
    match x
    case SubmitOut(addr, ep, data) =>
      && t.payload == data && t.length == |data| % 0x1_0000_0000
      && t.devAddr == addr && t.endpoint == ep && t.direction == HostToDevice
    case SubmitIn(addr, ep, len) =>
      && t.payload == [] && t.length == len % 0x1_0000_0000
      && t.devAddr == addr && t.endpoint == ep && t.direction == DeviceToHost
    case _ => false
  }

  predicate AllMade(ts: seq<H.Trb>, xs: seq<Action>) {
    |ts| == |xs| && forall k | 0 <= k < |ts| :: MadeFrom(ts[k], xs[k])
  }

  /** Across everything the role subsystem, the registers and the copy thread do, executed and
      queued transfers are exactly those software asked for, unaltered and in order. */
  lemma WholeConserves(t: seq<State>, a: seq<Action>, i: nat)
    requires SystemMachine.Run(t, a) && i < |t|
    ensures |t| == |a| + 1
    ensures AllMade(HP.Trbs(t[i].h.log.executed) + t[i].h.ring, Requests(a[..i]))
  {
    hide SystemMachine.Run;
    hide R.Run;
    hide H.Run;
    hide I.Run;
    hide Requests;
    hide HR.Requests;
    RunLength(t, a);
    PartsRun(t, a);
    HR.TransfersConserved(HostStates(t), HostActions(t, a), i);
    RequestsReachHost(t, a, i);
    var hs, xs := HR.Requests(HostActions(t, a)[..i]), Requests(a[..i]);
    var ts := HP.Trbs(t[i].h.log.executed) + t[i].h.ring;
    forall k | 0 <= k < |ts| ensures MadeFrom(ts[k], xs[k]) {
      assert HR.MadeFrom(ts[k], hs[k]) && SameRequest(hs[k], xs[k]);
    }
  }

  /** In the whole, what software passes to a bulk OUT comes back whole: if the last two requests
      carried out are an OUT of some data and an IN carried as host, the receive buffer holds it. */
  lemma WholeEchoes(t: seq<State>, a: seq<Action>, i: nat)
    requires SystemMachine.Run(t, a) && i < |t| == |a| + 1
    requires var k, xs := |t[i].h.log.executed|, Requests(a[..i]);
             2 <= k <= |xs| && xs[k - 2].SubmitOut? && xs[k - 2].data != []
             && xs[k - 1].SubmitIn? && t[i].h.log.executed[k - 1].role == Host
    ensures t[i].h.rxBuf == Requests(a[..i])[|t[i].h.log.executed| - 2].data
  {
    hide SystemMachine.Run;
    hide R.Run;
    hide H.Run;
    hide I.Run;
    hide Requests;
    hide HR.Requests;
    PartsRun(t, a);
    RequestsReachHost(t, a, i);
    var k, xs := |t[i].h.log.executed|, Requests(a[..i]);
    var hs := HR.Requests(HostActions(t, a)[..i]);
    assert SameRequest(hs[k - 2], xs[k - 2]) && SameRequest(hs[k - 1], xs[k - 1]);
    assert HostStates(t)[i] == t[i].h;
    HR.EchoReturns(HostStates(t), HostActions(t, a), i);
  }

  /** How long, and how often, the whole has shown transfer_done high in its first n steps. */
  function XferTime(t: seq<State>, a: seq<Action>, n: nat): nat
    requires |t| == |a| + 1 && n <= |a|
  {
    if n == 0 then 0
    else XferTime(t, a, n - 1) + if a[n - 1].DoAdvance? && t[n - 1].h.xferDone.cur then a[n - 1].d else 0
  }

  function XferEdges(t: seq<State>, n: nat): nat
    requires n < |t|
  {
    if n == 0 then 0
    else XferEdges(t, n - 1) + if !t[n - 1].h.xferDone.cur && t[n].h.xferDone.cur then 1 else 0
  }

  lemma {:induction false} XferIsHosts(t: seq<State>, a: seq<Action>, n: nat)
    requires |t| == |a| + 1 && n <= |a|
    ensures HR.HighTime(HostStates(t), HostActions(t, a), n) == XferTime(t, a, n)
    ensures HR.Edges(HostStates(t), n) == XferEdges(t, n)
  {
    hide RoleAction;
    if n > 0 {
      XferIsHosts(t, a, n - 1);
      assert HostActions(t, a)[n - 1] == HostAction(t[n - 1], a[n - 1]);
    }
  }

  /** In the whole, too, transfer_done is high for 1 ns per executed transfer and rises once per burst. */
  lemma WholeAccounts(t: seq<State>, a: seq<Action>, i: nat)
    requires SystemMachine.Run(t, a) && i < |t|
    ensures XferTime(t, a, i) + (if t[i].h.pc.TrbPulse? then t[i].h.pc.due - t[i].h.now else 0)
         == |t[i].h.log.executed|
    ensures |t[i].h.log.starts| <= |t[i].h.log.ends| + 1
    ensures XferEdges(t, i) + (if Rises(t[i].h.xferDone) then 1 else 0)
         == HP.Bursts(t[i].h.log.starts, t[i].h.log.ends)
  {
    PartsRun(t, a);
    HR.CompletionAccounting(HostStates(t), HostActions(t, a), i);
    XferIsHosts(t, a, i);
    hide SystemMachine.Run;
    hide R.Run;
    hide H.Run;
    hide I.Run;
    hide HP.Bursts;
    hide HR.HighTime;
    hide HR.Edges;
    hide XferTime;
    hide XferEdges;
  }

  /** The signal of the whole that a status bit stands for. */
  function Source(s: State, src: I.Source): bool {
    match src
    case EnumDone => s.h.enumDone.cur
    case XferDone => s.h.xferDone.cur
    case BulkIrq => s.c.bulkIrq.cur
  }

  lemma SourceIsLevel(s: State, src: I.Source)
    requires Wired(s)
    ensures Source(s, src) == I.Level(s.i, src).cur
  {}

  /** Step j is a run of the collector that leaves bit b set, and the level high if b is enabled. */
  predicate SetsStatus(t: seq<State>, a: seq<Action>, j: nat, b: nat)
    requires |t| == |a| + 1 && j < |a|
  {
    && a[j] == RunCollector && b in t[j + 1].i.regs.intrStatus
    && (b in t[j].i.regs.intrEnable ==> t[j + 1].i.regs.irq)
  }

  lemma IrqStep(t: seq<State>, a: seq<Action>, j: nat, b: nat)
    requires |t| == |a| + 1 && j < |a|
    ensures IR.SetsStatus(IrqStates(t), IrqActions(t, a), j, b) <==> SetsStatus(t, a, j, b)
    ensures a[j].DoDelta? ==> IrqActions(t, a)[j].DoDelta?
    ensures a[j].DoAdvance? ==> IrqActions(t, a)[j].DoAdvance?
  {
    hide RoleAfter;
    hide HostAfter;
    hide CopierAfter;
    hide WordOf;
    assert IrqActions(t, a)[j] == IrqAction(t[j], a[j]);
  }

  lemma RiseIsShown(t: seq<State>, a: seq<Action>, src: I.Source, k: nat)
    requires SystemMachine.Run(t, a) && k < |a| && !Source(t[k], src) && Source(t[k + 1], src)
    ensures |t| == |IrqStates(t)| == |a| + 1 && |IrqActions(t, a)| == |a|
    ensures I.Run(IrqStates(t), IrqActions(t, a)) && IR.RisesAt(IrqStates(t), k, src)
  {
    PartsRun(t, a);
    AlwaysWired(t, a, k);
    AlwaysWired(t, a, k + 1);
    SourceIsLevel(t[k], src);
    SourceIsLevel(t[k + 1], src);
    assert |t| == |a| + 1;
    hide SystemMachine.Run;
    hide R.Run;
    hide H.Run;
    hide I.Run;
    hide Wired;
    hide I.Level;
    hide Source;
  }

  /** Every rise of transfer_done, enumeration_done or bulk_irq sets its status bit: before the next
      update phase and before any time passes, a run of the collector leaves it set, and the
      interrupt level high if the bit is enabled. */
  lemma EveryRiseSetsStatus(t: seq<State>, a: seq<Action>, src: I.Source, k: nat, i: nat)
    requires SystemMachine.Run(t, a) && k < i < |a|
    requires !Source(t[k], src) && Source(t[k + 1], src)
    requires a[i].DoDelta? || a[i].DoAdvance?
    ensures exists j :: k < j < i && SetsStatus(t, a, j, I.BitOf(src))
  {
    hide I.Run;
    hide I.Level;
    hide I.BitOf;
    hide Source;
    hide IrqStates;
    hide IrqActions;
    hide IR.RisesAt;
    hide SystemMachine.Run;
    hide IR.SetsStatus;
    hide SetsStatus;
    RiseIsShown(t, a, src, k);
    IrqStep(t, a, i, 0);
    IR.EveryRiseIsRaised(IrqStates(t), IrqActions(t, a), src, k, i);
    var j :| k < j < i && IR.SetsStatus(IrqStates(t), IrqActions(t, a), j, I.BitOf(src));
    IrqStep(t, a, j, I.BitOf(src));
  }

  /** Bit 0, ROLE_CHANGED, comes up exactly when the monitor ends a guard time, 1 us after the edge it
      answered; the level goes high with it if the bit is enabled. */
  lemma SwitchSetsRoleChanged(t: seq<State>, a: seq<Action>, i: nat)
    requires SystemMachine.Run(t, a) && i < |a|
    ensures a[i] == RunMonitor && t[i].r.mon.pc.Guard? ==>
              var regs, regs' := t[i].i.regs, t[i + 1].i.regs;
              0 in regs'.intrStatus && (0 in regs.intrEnable ==> regs'.irq)
    ensures 0 !in t[i].i.regs.intrStatus && 0 in t[i + 1].i.regs.intrStatus ==>
              a[i] == RunMonitor && t[i].r.mon.pc.Guard?
  {
    RunStep(t, a, i);
    hide SystemMachine.Run;
    IR.RoleStep(t[i].i, IrqAction(t[i], a[i]));
    hide I.Step;
    hide Enabled;
    hide RoleAfter;
    hide HostAfter;
    hide CopierAfter;
    hide WordOf;
  }

  /** Status bit, level and their disagreement are, at every moment of the whole, what the history
      of raises and register writes makes them. */
  lemma WholeInterruptHistory(t: seq<State>, a: seq<Action>, i: nat)
    requires SystemMachine.Run(t, a) && i < |t|
    ensures var ev := IR.Events(IrqStates(t), IrqActions(t, a), i);
            && (forall k :: k in t[i].i.regs.intrStatus <==> RaisedSinceCleared(ev, |ev|, k))
            && (t[i].i.regs.irq <==> AssertedSinceZero(Trace(Registers.RESET, ev), ev, |ev|))
            && (!LevelAgrees(t[i].i.regs) <==> BrokenSinceMended(Trace(Registers.RESET, ev), ev, |ev|))
  {
    PartsRun(t, a);
    IR.RunIsHistory(IrqStates(t), IrqActions(t, a), i);
    hide SystemMachine.Run;
    hide R.Run;
    hide H.Run;
    hide I.Run;
    hide RaisedSinceCleared;
    hide AssertedSinceZero;
    hide BrokenSinceMended;
  }

  // ----- inputs and roles in the whole -----

  /** What the environment drove last in the first n steps of the whole. */
  function Driven(a: seq<Action>, n: nat): RR.Inputs
    requires n <= |a|
  {
    if n == 0 then RR.Inputs(Disconnected, false)
    else if a[n - 1].SetInputs? then RR.Inputs(a[n - 1].cc, a[n - 1].vbus)
    else Driven(a, n - 1)
  }

  /** What the inputs show the manager at step n. */
  function Shown(a: seq<Action>, n: nat): RR.Inputs
    requires n <= |a|
  {
    if n == 0 then RR.Inputs(Disconnected, false)
    else if a[n - 1].DoDelta? then Driven(a, n - 1)
    else Shown(a, n - 1)
  }

  /** The role a step of software asks for, if it does: it writes 1 or 2 to the register at 0x08. */
  predicate AsksFor(x: Action, r: Role) {
    && x.Access? && Index(x.addr) == 2
    && ((r == Host && x.val == {0}) || (r == Device && x.val == {1}))
  }

  lemma RoleActionIs(x: Action)
    ensures var ra := RoleAction(x);
            && (x.SetInputs? <==> ra.SetInputs?) && (x.SetInputs? ==> ra.cc == x.cc && ra.vbus == x.vbus)
            && (x.DoDelta? <==> ra.DoDelta?)
            && forall r :: ra == R.RequestRole(r) <==> AsksFor(x, r)
  {
    if x.Access? {
      RoleAskedIff(x.addr, x.val);
      var w := RoleWritten(x.addr, x.val);
      hide RoleWritten;
      assert w == None || w == Some(Host) || w == Some(Device);
    }
  }

  lemma {:induction false} InputsReachManager(a: seq<Action>, n: nat)
    requires n <= |a|
    ensures RR.Driven(RoleActions(a), n) == Driven(a, n) && RR.Shown(RoleActions(a), n) == Shown(a, n)
  {
    hide RoleAction;
    if n > 0 {
      InputsReachManager(a, n - 1);
      assert RoleActions(a)[n - 1] == RoleAction(a[n - 1]);
      RoleActionIs(a[n - 1]);
    }
  }

  /** A request for r has been made through the register and the manager has not looked since. */
  predicate Outstanding(t: seq<State>, a: seq<Action>, n: nat, r: Role)
    requires |t| == |a| + 1 && n <= |a|
  {
    && n > 0 && !Looks(t[n - 1], a[n - 1])
    && (AsksFor(a[n - 1], r) || Outstanding(t, a, n - 1, r))
  }

  predicate Looks(s: State, x: Action) { x == RunManager && s.r.mgr.pc.AwaitInput? }

  /** The arbiter's verdict at the manager's last look in the first n steps of the whole. */
  function Verdict(t: seq<State>, a: seq<Action>, n: nat): Role
    requires |t| == |a| + 1 && n <= |a|
  {
    if n == 0 then RoleNone
    else if Looks(t[n - 1], a[n - 1]) then
      RR.Arbitrate(Shown(a, n - 1).cc, Shown(a, n - 1).vbus,
                   Outstanding(t, a, n - 1, Host), Outstanding(t, a, n - 1, Device))
    else Verdict(t, a, n - 1)
  }

  lemma {:induction false} VerdictIsManagers(t: seq<State>, a: seq<Action>, n: nat)
    requires |t| == |a| + 1 && n <= |a|
    ensures RR.Verdict(RoleStates(t), RoleActions(a), n) == Verdict(t, a, n)
    ensures RR.Outstanding(RoleStates(t), RoleActions(a), n, Host) == Outstanding(t, a, n, Host)
    ensures RR.Outstanding(RoleStates(t), RoleActions(a), n, Device) == Outstanding(t, a, n, Device)
  {
    hide RoleAction;
    hide AsksFor;
    hide Shown;
    hide RR.Shown;
    hide RR.Arbitrate;
    if n > 0 {
      VerdictIsManagers(t, a, n - 1);
      InputsReachManager(a, n - 1);
      LookIsWakeup(t, a, n - 1);
      RoleActionIs(a[n - 1]);
      assert RoleActions(a)[n - 1] == RoleAction(a[n - 1]);
    }
  }

  lemma LookIsWakeup(t: seq<State>, a: seq<Action>, i: nat)
    requires |t| == |a| + 1 && i < |a|
    ensures RR.Wakes(RoleStates(t), RoleActions(a), i) <==> Looks(t[i], a[i])
  {
    assert RoleActions(a)[i] == RoleAction(a[i]);
    hide RoleWritten;
  }

  /** In the whole the role, once written out, is the arbiter's verdict over the inputs the
      environment drove and the writes software made to the register at 0x08. */
  lemma WholeArbitrates(t: seq<State>, a: seq<Action>, i: nat)
    requires SystemMachine.Run(t, a) && i < |t|
    ensures |t| == |a| + 1 && t[i].r.mgr.role == t[i].r.mgr.currentRole.next == Verdict(t, a, i)
  {
    hide SystemMachine.Run;
    hide R.Run;
    hide H.Run;
    hide I.Run;
    hide Verdict;
    hide RR.Verdict;
    RunLength(t, a);
    PartsRun(t, a);
    RR.RoleIsVerdict(RoleStates(t), RoleActions(a), i);
    RR.RoleIsWritten(RoleStates(t), RoleActions(a), i);
    VerdictIsManagers(t, a, i);
  }
}
