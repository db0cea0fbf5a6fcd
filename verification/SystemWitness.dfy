/** Runs of the whole controller that end where a reader might hope none does. */
module SystemWitness {
  import opened Kernel
  import opened UsbTypes
  import opened Transport
  import opened TransportProps
  import G = Registers
  import opened SystemMachine
  import opened SystemRuns
  import opened SystemDevice
  import R = RoleMachine
  import RR = RoleRuns
  import H = HostMachine
  import HP = HostProps
  import HR = HostRuns
  import L = Loopback
  import E = Enumeration

  /** Some run ends in s. */
  ghost predicate Reachable(s: State) {
    exists t: seq<State>, a: seq<Action> :: Run(t, a) && t[|a|] == s
  }

  lemma ReachReset(devRom: Rom, peerRom: Rom)
    ensures Reachable(Reset(devRom, peerRom))
  {
    hide Reset;
    var t: seq<State>, a: seq<Action> := [Reset(devRom, peerRom)], [];
    assert Run(t, a) && t[|a|] == t[0];
  }

  lemma RunGrows(t: seq<State>, a: seq<Action>, b: Action)
    requires Run(t, a) && Enabled(t[|a|], b)
    ensures Run(t + [Step(t[|a|], b)], a + [b])
  {
    hide Step;
    hide Enabled;
    hide Reset;
    var t', a' := t + [Step(t[|a|], b)], a + [b];
    assert t'[0] == t[0];
    forall i | 0 <= i < |a'| ensures Enabled(t'[i], a'[i]) && t'[i + 1] == Step(t'[i], a'[i]) {
      if i < |a| { assert t'[i + 1] == t[i + 1]; }
    }
  }

  lemma Reach(s: State, b: Action)
    requires Reachable(s) && Enabled(s, b)
    ensures Reachable(Step(s, b))
  {
    hide Step;
    hide Enabled;
    hide Reset;
    var t: seq<State>, a: seq<Action> :| Run(t, a) && t[|a|] == s;
    RunGrows(t, a, b);
    var t', a' := t + [Step(s, b)], a + [b];
    assert t'[|a'|] == Step(s, b);
    hide Run;
  }

  lemma ReachableInv(s: State)
    requires Reachable(s)
    ensures Wired(s) && RR.Inv(s.r) && HR.Inv(s.h)
  {
    var t: seq<State>, a: seq<Action> :| Run(t, a) && t[|a|] == s;
    AlwaysWired(t, a, |a|);
    PartsKeepInvariants(t, a, |a|);
    hide Wired;
    hide RR.Inv;
    hide HR.Inv;
    hide Run;
  }

  // ----- letting the role subsystem run while the rest waits -----

  /** Outside the role subsystem every process waits. */
  predicate Resting(s: State) {
    && !s.h.ready && !s.h.ringEvent && s.h.ring == []
    && s.c == Copier(L.AwaitOut, false, Signal(false, false)) && !s.h.net.dev.outPending
    && !s.i.ready
  }

  /** The host thread's timed wait has not ended. */
  predicate Ahead(s: State) { H.Timed(s.h.pc) ==> s.h.now < s.h.pc.due }

  /** And nothing is pending. */
  predicate Calm(s: State) {
    Resting(s) && Ahead(s) && !s.h.enumDone.Changes() && !s.h.xferDone.Changes() && !s.h.addrOut.Changes()
  }

  /** The thread waits where it did, and device block and peer are as they were. */
  predicate SameHost(s: State, s': State) {
    && s'.h.pc == s.h.pc && s'.h.log.begunAs == s.h.log.begunAs
    && s'.h.net.dev == s.h.net.dev && s'.h.net.peer == s.h.net.peer
  }

  lemma Settle(s: State) returns (s': State)
    requires Reachable(s) && Resting(s.(i := s.i.(ready := false)))
    ensures Reachable(s') && Resting(s') && s'.r == s.r && s'.h == s.h
  {
    hide Reachable;
    hide G.After;
    s' := s;
    if s.i.ready {
      Reach(s, RunCollector);
      s' := Step(s, RunCollector);
    }
  }

  lemma RunRole(s: State, b: Action) returns (s': State)
    requires Reachable(s) && Calm(s) && R.Enabled(s.r, RoleAction(b))
    requires b.RunManager? || b.RunMonitor? || b.Access?
    ensures Reachable(s') && Calm(s') && s'.r == RoleAfter(s, b) && SameHost(s, s')
  {
    hide Reachable;
    hide R.Step;
    hide R.Enabled;
    hide G.Written;
    Reach(s, b);
    s' := Step(s, b);
  }

  /** Software asks for a role through the register. */
  lemma Ask(s: State, role: Role) returns (s': State)
    requires Reachable(s) && Calm(s) && role != RoleNone
    ensures Reachable(s') && Calm(s') && s'.r == R.Step(s.r, R.RequestRole(role)) && SameHost(s, s')
  {
    hide Reachable;
    hide R.Step;
    hide Calm;
    hide G.RoleWritten;
    s' := RunRole(s, Access(G.ROLE_CTRL, G.RoleCode(role)));
    G.RoleAskedIff(G.ROLE_CTRL, G.RoleCode(role));
  }

  lemma DeltaStep(s: State)
    requires Resting(s) && R.Enabled(s.r, R.DoDelta)
    ensures Enabled(s, DoDelta)
    ensures var s', r := Step(s, DoDelta), R.Delta(s.r);
            s'.r == r && s'.h == H.Delta(s.h, r.mgr.currentRole.cur, r.mon.devEnable.cur) && s'.c == s.c
  {
    hide R.Delta;
    hide H.Delta;
    hide I.Delta;
  }

  lemma ShowWrites(s: State) returns (s': State)
    requires Reachable(s) && Resting(s) && Ahead(s) && R.Enabled(s.r, R.DoDelta)
    requires s.h.pc.AwaitEnable? ==> !Rises(s.r.mon.hostEnable)
    ensures Reachable(s') && Calm(s') && s'.r == R.Delta(s.r) && SameHost(s, s')
  {
    hide Reachable;
    hide RR.Inv;
    hide HR.Inv;
    hide R.Enabled;
    hide Enabled;
    hide Step;
    ReachableInv(s);
    DeltaStep(s);
    DeltaShows(s);
    Reach(s, DoDelta);
    s' := Settle(Step(s, DoDelta));
  }

  lemma DeltaShows(s: State)
    requires Wired(s)
    ensures R.Delta(s.r).mon.hostEnable == s.h.enable.Update()
  {}

  lemma Update(s: State) returns (s': State)
    requires Reachable(s) && Calm(s) && R.Enabled(s.r, R.DoDelta)
    requires s.h.pc.AwaitEnable? ==> !Rises(s.r.mon.hostEnable)
    ensures Reachable(s') && Calm(s') && s'.r == R.Delta(s.r) && SameHost(s, s')
  {
    hide Reachable;
    s' := ShowWrites(s);
  }

  lemma AdvanceStep(s: State, d: nat)
    requires Calm(s) && Wired(s) && R.Enabled(s.r, R.DoAdvance(d)) && (H.Timed(s.h.pc) ==> s.h.now + d <= s.h.pc.due)
    ensures Enabled(s, DoAdvance(d))
    ensures var s' := Step(s, DoAdvance(d));
            s'.r == R.Advance(s.r, d) && s'.h == H.Advance(s.h, d) && s'.c == s.c && s'.i == s.i
  {
    hide R.Advance;
    hide H.Advance;
  }

  lemma Pass(s: State, d: nat) returns (s': State)
    requires Reachable(s) && Calm(s) && R.Enabled(s.r, R.DoAdvance(d))
    requires H.Timed(s.h.pc) ==> s.r.now + d < s.h.pc.due
    ensures Reachable(s') && Calm(s') && s'.r == R.Advance(s.r, d) && SameHost(s, s')
  {
    hide Reachable;
    hide RR.Inv;
    hide HR.Inv;
    hide R.Advance;
    hide R.Enabled;
    hide Enabled;
    hide Step;
    ReachableInv(s);
    AdvanceStep(s, d);
    Reach(s, DoAdvance(d));
    s' := Step(s, DoAdvance(d));
  }

  // ----- the host thread -----

  lemma HostWaits(devRom: Rom, peerRom: Rom) returns (s: State)
    ensures Reachable(s) && Calm(s) && s.r == R.RESET && s.h.pc.AwaitEnable?
    ensures s.h.net.dev == Reset(devRom, peerRom).h.net.dev && s.h.net.peer == Reset(devRom, peerRom).h.net.peer
  {
    hide Reachable;
    ReachReset(devRom, peerRom);
    Reach(Reset(devRom, peerRom), RunHost);
    s := Step(Reset(devRom, peerRom), RunHost);
  }

  /** The first request of an enumeration is out, and its wait has just begun. */
  predicate JustBegun(s: State) { s.h.pc == H.SetupSent(H.GetDevice, s.h.now + H.SETUP_NS) }

  lemma BeginStep(h: H.State)
    requires h.pc.AwaitEnable? && h.enable.cur && !h.net.devEnable
    ensures var h' := H.Resume(h);
            && h'.pc == H.SetupSent(H.GetDevice, h.now + H.SETUP_NS) && h'.now == h.now && !h'.ready
            && h'.log.begunAs == h.net.role && h'.net.dev == h.net.dev && h'.net.peer == h.net.peer
            && h'.enumDone == h.enumDone && h'.xferDone == h.xferDone && h'.addrOut == h.addrOut
            && h'.ringEvent == h.ringEvent && h'.ring == h.ring && h'.enable == h.enable
  {
    hide Sent;
    hide Descriptors.Packed;
    hide PeerReply;
    var b := H.Begun(h.(ready := false));
    var e := H.ControlExt(b, Setup, H.GetDevice).(setup := H.RequestPacket(H.GetDevice));
    SendIsolation(b.net, HostSide, e, Descriptors.Packed(H.RequestPacket(H.GetDevice)));
    PeerFollowsRequests(b.net, HostSide, e, Descriptors.Packed(H.RequestPacket(H.GetDevice)));
    ControlSend(b.net, HostSide, e, Descriptors.Packed(H.RequestPacket(H.GetDevice)));
  }

  /** The update phase that shows host enable rising. */
  lemma HostRoused(s: State) returns (s': State)
    requires Reachable(s) && Calm(s) && R.Enabled(s.r, R.DoDelta)
    requires s.h.pc.AwaitEnable? && Rises(s.r.mon.hostEnable)
    ensures Reachable(s') && Calm(Rested(s')) && s'.r == R.Delta(s.r) && SameHost(s, s') && s'.h.ready
    ensures s'.h.enable.cur && !s'.h.net.devEnable && s'.h.net.role == s'.r.mgr.currentRole.cur
  {
    hide Reachable;
    hide HR.Inv;
    hide R.Enabled;
    hide Enabled;
    hide Step;
    ReachableInv(s);
    DeltaStep(s);
    Reach(s, DoDelta);
    s' := Step(s, DoDelta);
    ReachableInv(s');
  }

  /** The state with the host thread and the collector not runnable. */
  function Rested(s: State): State { s.(h := s.h.(ready := false), i := s.i.(ready := false)) }

  /** Then the host thread begins to enumerate. */
  lemma HostBegins(s: State) returns (s': State)
    requires Reachable(s) && Calm(Rested(s)) && s.h.ready
    requires s.h.pc.AwaitEnable? && s.h.enable.cur && !s.h.net.devEnable
    ensures Reachable(s') && Calm(s') && s'.r == s.r && JustBegun(s')
    ensures s'.h.log.begunAs == s.h.net.role
    ensures s'.h.net.dev == s.h.net.dev && s'.h.net.peer == s.h.net.peer
  {
    hide Reachable;
    hide H.Resume;
    hide Step;
    hide Enabled;
    BeginStep(s.h);
    RunStepsHost(s);
    Reach(s, RunHost);
    s' := Settle(Step(s, RunHost));
  }

  /** The role subsystem waits for nothing but the environment. */
  predicate RoleIdle(r: R.State) {
    && r.mgr.pc.AwaitInput? && r.mon.pc.AwaitEdge? && !r.mgr.ready && !r.mon.ready
    && !r.requestEvent && R.Settled(r)
  }

  /** A step of an enumeration that nothing disturbs: its wait ends and the thread runs to the next. */
  predicate StepsOn(h: H.State, h': H.State) {
    && E.Enumerating(h.pc) && E.Enumerating(h'.pc) && E.Offset(h.pc) < E.Offset(h'.pc)
    && h'.log.begunAs == h.log.begunAs && h'.net.dev == h.net.dev && h'.net.peer.rom == h.net.peer.rom
  }

  lemma EnumerationRuns(h: H.State)
    requires HR.Inv(h) && E.Enumerating(h.pc) && !h.pc.EnumPulse? && h.ready
    ensures var h' := H.Resume(h);
            && E.Enumerating(h'.pc) && E.Offset(h.pc) < E.Offset(h'.pc) && h'.now < h'.pc.due
            && (E.Offset(h.pc) < 2_014_000 ==> E.Offset(h'.pc) <= 2_014_000)
            && h'.log.begunAs == h.log.begunAs && !h'.ready && h'.ringEvent == h.ringEvent && h'.now == h.now
            && h'.xferDone == h.xferDone && h'.net.peer.rom == h.net.peer.rom && h'.ring == h.ring
  {
    assert E.Learning(h) && HP.Timely(h);
    hide HR.Inv;
    HR.ResumeAdvances(h);
    var w := H.Wake(h);
    HP.WakeEffect(h);
    HP.ContinueBulk(w);
    assert !w.ready && w.log == h.log && w.now == h.now && w.xferDone == h.xferDone;
    assert w.ringEvent == h.ringEvent && w.ring == h.ring;
    hide E.Learning;
    hide H.Wake;
    hide H.Continue;
    hide H.ExecuteHead;
  }

  /** The wait of the host thread ends, with the role subsystem idle. */
  lemma WaitOut(s: State) returns (s': State)
    requires Reachable(s) && Calm(s) && RoleIdle(s.r) && E.Enumerating(s.h.pc)
    ensures Reachable(s') && Resting(Rested(s')) && s'.h.ready && SameHost(s, s')
    ensures s'.r == s.r.(now := s'.r.now) && RoleIdle(s'.r)
  {
    hide Reachable;
    hide RR.Inv;
    hide HR.Inv;
    hide Enabled;
    hide Step;
    hide R.Enabled;
    hide R.Advance;
    ReachableInv(s);
    var d := s.h.pc.due - s.h.now;
    IdlePasses(s.r, d);
    AdvanceStep(s, d);
    Reach(s, DoAdvance(d));
    s' := Step(s, DoAdvance(d));
  }

  lemma IdlePasses(r: R.State, d: nat)
    requires RoleIdle(r) && d > 0
    ensures R.Enabled(r, R.DoAdvance(d)) && R.Advance(r, d) == r.(now := r.now + d)
  {}

  lemma ReachableMoves(s: State)
    requires Reachable(s) && s.h.ready
    ensures Step(s, RunHost).h.net.dev == Moved(s.h.net.dev, RunMove(s.h))
  {
    var t: seq<State>, a: seq<Action> :| Run(t, a) && t[|a|] == s;
    var t', a' := t + [Step(s, RunHost)], a + [RunHost];
    assert t'[|a|] == s && t'[|a'|] == Step(s, RunHost) && a'[|a|] == RunHost;
    assert Enabled(s, RunHost) by { hide H.Resume; }
    RunGrows(t, a, RunHost);
    HostRunMoves(t', a', |a|);
    hide Run;
    hide Step;
    hide Enabled;
    hide Moved;
    hide RunMove;
  }

  lemma RunStepsHost(s: State)
    requires s.h.ready
    ensures Enabled(s, RunHost)
    ensures var s' := Step(s, RunHost); s'.r == s.r && s'.h == H.Resume(s.h) && s'.c == s.c
  {
    hide H.Resume;
  }

  /** It runs to its next wait, and the update phase shows what it wrote. */
  lemma RunOn(s: State) returns (s': State)
    requires Reachable(s) && Resting(Rested(s)) && s.h.ready && RoleIdle(s.r)
    requires E.Enumerating(s.h.pc) && !s.h.pc.EnumPulse? && RunMove(s.h) == Still
    ensures Reachable(s') && Calm(s') && s'.r == s.r && StepsOn(s.h, s'.h)
    ensures E.Offset(s.h.pc) < 2_014_000 ==> E.Offset(s'.h.pc) <= 2_014_000
  {
    hide Reachable;
    hide HR.Inv;
    hide RR.Inv;
    hide H.Resume;
    hide Step;
    hide Enabled;
    hide R.Enabled;
    hide R.Delta;
    ReachableInv(s);
    EnumerationRuns(s.h);
    ReachableMoves(s);
    RunStepsHost(s);
    Reach(s, RunHost);
    var s2 := Settle(Step(s, RunHost));
    IdleUpdate(s2.r);
    s' := ShowWrites(s2);
  }

  lemma IdleUpdate(r: R.State)
    requires RoleIdle(r)
    ensures R.Enabled(r, R.DoDelta) && R.Delta(r) == r
  {}

  /** An enumeration nobody disturbs comes to the wait that ends `goal` ns after it began. */
  lemma Coast(s: State, goal: nat) returns (s': State)
    requires Reachable(s) && Calm(s) && RoleIdle(s.r) && E.Enumerating(s.h.pc) && E.Offset(s.h.pc) <= goal
    requires goal == 2_014_000 || (goal == 2_035_010 && !s.r.mon.devEnable.cur)
    ensures Reachable(s') && Calm(s') && RoleIdle(s'.r) && E.Enumerating(s'.h.pc) && E.Offset(s'.h.pc) == goal
    ensures s'.r == s.r.(now := s'.r.now) && s'.h.log.begunAs == s.h.log.begunAs
    ensures s'.h.net.dev == s.h.net.dev && s'.h.net.peer.rom == s.h.net.peer.rom
    decreases goal - E.Offset(s.h.pc)
  {
    hide Reachable;
    hide Calm;
    hide Resting;
    hide RoleIdle;
    s' := s;
    if E.Offset(s.h.pc) < goal {
      var s1 := WaitOut(s);
      ReachableInv(s1);
      assert RunMove(s1.h) == Still;
      hide RR.Inv;
      hide HR.Inv;
      hide Wired;
      var s2 := RunOn(s1);
      s' := Coast(s2, goal);
    }
  }

  // ----- the ring -----

  /** The completion pulse of an enumeration ends, and the thread finds the ring empty. */
  lemma ToRing(s: State) returns (s': State)
    requires Reachable(s) && Calm(s) && RoleIdle(s.r) && s.h.pc.EnumPulse? && s.r.mon.hostEnable.cur
    ensures Reachable(s') && Calm(s') && s'.r == s.r.(now := s'.r.now) && RoleIdle(s'.r) && s'.h.pc.AwaitRing?
  {
    hide Reachable;
    hide RR.Inv;
    hide HR.Inv;
    hide Step;
    hide Enabled;
    hide R.Enabled;
    hide R.Delta;
    var s1 := WaitOut(s);
    ReachableInv(s1);
    RunStepsHost(s1);
    Reach(s1, RunHost);
    var s2 := Settle(Step(s1, RunHost));
    IdleUpdate(s2.r);
    s' := ShowWrites(s2);
  }
}
