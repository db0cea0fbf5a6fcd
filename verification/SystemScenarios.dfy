/** Reachable situations of the whole controller: the host side on in the device role, a request
    left behind, an enumeration that learns nothing, and an answer to the host that lands in the
    device block. */
module SystemScenarios {
  import opened Kernel
  import opened UsbTypes
  import opened Transport
  import opened TransportProps
  import opened RoleMachine
  import opened SystemWitness
  import S = SystemMachine
  import SM = Registers
  import L = Loopback
  import SR = SystemRuns
  import SD = SystemDevice
  import RR = RoleRuns
  import H = HostMachine
  import HP = HostProps
  import HR = HostRuns
  import E = Enumeration

  // ----- states of the role subsystem -----

  /** A host request has been served; its edge is about to show. */
  const HOST_PULSE: State :=
    RESET.(mgr := Manager(InPulse(10), false, Host, false, false, Signal(RoleNone, Host), Signal(false, true)),
           mon := RESET.mon.(pc := AwaitEdge, ready := false))

  /** It shows, and the monitor has begun its guard time. */
  const HOST_GUARD: State :=
    RESET.(mgr := Manager(InPulse(10), false, Host, false, false, Signal(Host, Host), Signal(true, true)),
           mon := Monitor(Guard(1000), false, Host, Signal(false, false), Signal(false, false)))

  const PULSE_OVER: State :=
    HOST_GUARD.(now := 10,
                mgr := Manager(AwaitInput, false, Host, false, false, Signal(Host, Host), Signal(false, false)))

  const DEVICE_ASKED: State := PULSE_OVER.(mgr := PULSE_OVER.mgr.(ready := true, deviceRequested := true))

  /** A device request has been served; its edge came while the monitor was not waiting for one. */
  const DEVICE_PULSE: State :=
    HOST_GUARD.(now := 10,
                mgr := Manager(InPulse(20), false, Device, false, false, Signal(Device, Device), Signal(true, true)))

  const DEVICE_QUIET: State :=
    HOST_GUARD.(now := 20,
                mgr := Manager(AwaitInput, false, Device, false, false, Signal(Device, Device), Signal(false, false)))

  /** The guard time has ended and the host side is on, in the device role. */
  const MISMATCHED: State :=
    DEVICE_QUIET.(now := 1000, mon := Monitor(AwaitEdge, false, Host, Signal(true, true), Signal(false, false)))

  /** The same without the device request: the host side is on in the host role. */
  const HOST_ON: State :=
    PULSE_OVER.(now := 1000, mon := Monitor(AwaitEdge, false, Host, Signal(true, true), Signal(false, false)))

  /** A device request is served with the monitor waiting for its edge. */
  const DEVICE_GUARD: State :=
    HOST_ON.(mgr := Manager(InPulse(1010), false, Device, false, false, Signal(Device, Device), Signal(true, true)),
             mon := Monitor(Guard(2000), false, Device, Signal(false, false), Signal(false, false)))

  /** And the device side is on. */
  const DEVICE_ON: State :=
    HOST_ON.(now := 2000,
             mgr := Manager(AwaitInput, false, Device, false, false, Signal(Device, Device), Signal(false, false)),
             mon := Monitor(AwaitEdge, false, Device, Signal(false, false), Signal(true, true)))

  /** A device request was made in the pulse: it is on record and nothing will bring it up. */
  const REQUEST_LEFT: State := PULSE_OVER.(mgr := PULSE_OVER.mgr.(deviceRequested := true))

  // ----- the steps between them -----

  lemma ToHostPulse(devRom: Rom, peerRom: Rom) returns (s: S.State)
    ensures Reachable(s) && Calm(s) && s.h.pc.AwaitEnable? && s.r == HOST_PULSE
    ensures s.h.net.dev == S.Reset(devRom, peerRom).h.net.dev && s.h.net.peer.rom == peerRom
  {
    hide Reachable;
    hide Calm;
    s := HostWaits(devRom, peerRom);
    s := RunRole(s, S.RunManager);
    s := RunRole(s, S.RunMonitor);
    s := Ask(s, Host);
    s := Update(s);
    s := RunRole(s, S.RunManager);
  }

  lemma ToHostGuard(s: S.State) returns (s': S.State)
    requires Reachable(s) && Calm(s) && s.h.pc.AwaitEnable? && s.r == HOST_PULSE
    ensures Reachable(s') && Calm(s') && SameHost(s, s') && s'.r == HOST_GUARD
  {
    hide Reachable;
    hide Calm;
    s' := Update(s);
    s' := RunRole(s', S.RunMonitor);
  }

  lemma ToPulseOver(s: S.State) returns (s': S.State)
    requires Reachable(s) && Calm(s) && s.h.pc.AwaitEnable? && s.r == HOST_GUARD
    ensures Reachable(s') && Calm(s') && SameHost(s, s') && s'.r == PULSE_OVER
  {
    hide Reachable;
    hide Calm;
    s' := Pass(s, 10);
    s' := RunRole(s', S.RunManager);
    s' := Update(s');
  }

  lemma ToDevicePulse(s: S.State) returns (s': S.State)
    requires Reachable(s) && Calm(s) && s.h.pc.AwaitEnable? && s.r == PULSE_OVER
    ensures Reachable(s') && Calm(s') && SameHost(s, s') && s'.r == DEVICE_PULSE
  {
    hide Reachable;
    hide Calm;
    s' := Ask(s, Device);
    s' := Update(s');
    s' := RunRole(s', S.RunManager);
    s' := Update(s');
  }

  lemma ToDeviceQuiet(s: S.State) returns (s': S.State)
    requires Reachable(s) && Calm(s) && s.h.pc.AwaitEnable? && s.r == DEVICE_PULSE
    ensures Reachable(s') && Calm(s') && SameHost(s, s') && s'.r == DEVICE_QUIET
  {
    hide Reachable;
    hide Calm;
    s' := Pass(s, 10);
    s' := RunRole(s', S.RunManager);
    s' := Update(s');
  }

  /** The guard time ends, the host side is switched on and the host begins to enumerate, whatever
      the role is by now. */
  lemma ToHostBegun(s: S.State, d: nat) returns (s': S.State)
    requires Reachable(s) && Calm(s) && s.h.pc.AwaitEnable?
    requires (s.r == DEVICE_QUIET && d == 980) || (s.r == PULSE_OVER && d == 990)
    ensures Reachable(s') && Calm(s') && JustBegun(s') && s'.h.net.dev == s.h.net.dev && s'.h.net.peer == s.h.net.peer
    ensures s'.r == if s.r == PULSE_OVER then HOST_ON else MISMATCHED
    ensures s'.h.log.begunAs == s'.r.mgr.currentRole.cur
  {
    hide Reachable;
    hide Calm;
    hide JustBegun;
    s' := Pass(s, d);
    s' := RunRole(s', S.RunMonitor);
    s' := HostRoused(s');
    s' := HostBegins(s');
  }

  // ----- the situations -----

  lemma ToMismatch(devRom: Rom, peerRom: Rom) returns (s: S.State)
    ensures Reachable(s) && Calm(s) && JustBegun(s) && s.r == MISMATCHED && s.h.log.begunAs == Device
    ensures s.h.net.peer.rom == peerRom
  {
    hide Reachable;
    hide Calm;
    hide JustBegun;
    s := ToHostPulse(devRom, peerRom);
    s := ToHostGuard(s);
    s := ToPulseOver(s);
    s := ToDevicePulse(s);
    s := ToDeviceQuiet(s);
    s := ToHostBegun(s, 980);
  }

  /** A role taken inside the guard time is missed: the host side can be on, for good, in the
      device role. */
  lemma FlipInGuardDisagrees(devRom: Rom, peerRom: Rom)
    ensures exists s: S.State :: Reachable(s) && RR.Parked(s.r) && !RR.Agrees(s.r)
                                 && s.r.mon.hostEnable.cur && s.r.mgr.currentRole.cur == Device
  {
    var s := ToMismatch(devRom, peerRom);
    hide Reachable;
    hide Calm;
    hide JustBegun;
  }

  lemma ReachableLearned(s: S.State)
    requires Reachable(s) && s.h.pc.EnumPulse? && s.h.log.begunAs == Device
    ensures s.h.info.enumerated && s.h.info.vendorId == 0 && s.h.info.productId == 0 && s.h.info.numConfigs == 0
  {
    ReachableInv(s);
    assert E.Learning(s.h);
    hide Reachable;
    hide RR.Inv;
    hide HR.Inv;
    hide SR.Wired;
  }

  /** Enumerating then succeeds all the same, with every id zero, whatever the peer's are. */
  lemma EnumeratesWithoutIds(devRom: Rom, peerRom: Rom)
    ensures exists s: S.State :: Reachable(s) && s.h.info.enumerated && s.h.net.peer.rom == peerRom
                                 && s.h.info.vendorId == 0 && s.h.info.productId == 0 && s.h.info.numConfigs == 0
  {
    var s0 := ToMismatch(devRom, peerRom);
    hide Reachable;
    hide Calm;
    var s := Coast(s0, 2_035_010);
    assert s.h.pc.EnumPulse?;
    ReachableLearned(s);
  }

  lemma ToDeviceGuard(s: S.State) returns (s': S.State)
    requires Reachable(s) && Calm(s) && JustBegun(s) && s.r == HOST_ON
    ensures Reachable(s') && Calm(s') && SameHost(s, s') && s'.r == DEVICE_GUARD
  {
    hide Reachable;
    hide Calm;
    s' := Ask(s, Device);
    s' := Update(s');
    s' := RunRole(s', S.RunManager);
    s' := Update(s');
    s' := RunRole(s', S.RunMonitor);
    s' := Update(s');
  }

  lemma ToDeviceOn(s: S.State) returns (s': S.State)
    requires Reachable(s) && Calm(s) && s.h.pc == H.SetupSent(H.GetDevice, 6000) && s.r == DEVICE_GUARD
    ensures Reachable(s') && Calm(s') && SameHost(s, s') && s'.r == DEVICE_ON
  {
    hide Reachable;
    hide Calm;
    s' := Pass(s, 10);
    s' := RunRole(s', S.RunManager);
    s' := Update(s');
    s' := Pass(s', 990);
    s' := RunRole(s', S.RunMonitor);
    s' := Update(s');
  }

  /** The host has begun an enumeration, and while its first request waits the role becomes device
      and the device side is switched on. */
  lemma ToDeviceWhileEnumerating(devRom: Rom, peerRom: Rom) returns (s: S.State)
    ensures Reachable(s) && Calm(s) && s.r == DEVICE_ON && s.h.pc == H.SetupSent(H.GetDevice, 6000)
    ensures s.h.net.dev == S.Reset(devRom, peerRom).h.net.dev && s.h.net.peer.rom == peerRom
  {
    hide Reachable;
    hide Calm;
    s := ToHostPulse(devRom, peerRom);
    s := ToHostGuard(s);
    s := ToPulseOver(s);
    s := ToHostBegun(s, 990);
    ReachableInv(s);
    hide RR.Inv;
    hide HR.Inv;
    assert s.h.now == 1000;
    hide SR.Wired;
    s := ToDeviceGuard(s);
    s := ToDeviceOn(s);
  }

  /** The thread runs at the end of its settling time and reads the configuration. */
  lemma ConfigLands(s: S.State)
    requires Reachable(s) && S.Enabled(s, S.RunHost) && DeviceListens(s.h.net) && s.h.pc.Settling?
    requires s.h.net.peer.rom.cfg != []
    ensures S.Step(s, S.RunHost).h.net.dev == OutLanded(s.h.net.dev, Truncate(s.h.net.peer.rom.cfg, 255))
  {
    assert s.h.ready by { hide H.Resume; }
    ReachableMoves(s);
    hide Reachable;
    hide S.Step;
    hide S.Enabled;
  }

  /** With the role and the device enable changed under an enumeration, the answer to the host's
      own configuration read lands in the device's EP2 as if it were bulk data. */
  lemma AnswerLandsInDevice(devRom: Rom, peerRom: Rom)
    requires peerRom.cfg != []
    ensures exists s: S.State :: Reachable(s) && S.Enabled(s, S.RunHost) && !s.h.net.dev.ep2.hasData
                                 && S.Step(s, S.RunHost).h.net.dev.ep2 == Fifo(Truncate(peerRom.cfg, 255), true)
  {
    hide Reachable;
    hide Calm;
    hide S.Step;
    hide S.Enabled;
    hide RR.Inv;
    hide HR.Inv;
    var s0 := ToDeviceWhileEnumerating(devRom, peerRom);
    var s1 := Coast(s0, 2_014_000);
    assert s1.h.pc.Settling?;
    var s := WaitOut(s1);
    RunStepsHost(s);
    ReachableInv(s);
    ConfigLands(s);
  }

  /** A role request made inside the manager's pulse can be left on record with nothing to bring it up. */
  lemma RequestIsLeft(devRom: Rom, peerRom: Rom)
    ensures exists s: S.State :: Reachable(s) && RR.Asked(s.r, Device) && s.r.mgr.role == Host
                                 && s.r.mgr.pc.AwaitInput? && !s.r.mgr.ready && !s.r.requestEvent && Settled(s.r)
  {
    hide Reachable;
    hide Calm;
    var s := ToHostPulse(devRom, peerRom);
    s := ToHostGuard(s);
    s := Ask(s, Device);
    s := Update(s);
    s := Pass(s, 10);
    s := RunRole(s, S.RunManager);
    s := Update(s);
    assert s.r == REQUEST_LEFT;
  }

  // ----- bulk data through the whole -----

  /** Enumerated as host, with the ring empty and the thread waiting on it. */
  lemma ToIdleHost(devRom: Rom, peerRom: Rom) returns (s: S.State)
    ensures Reachable(s) && Calm(s) && s.h.pc.AwaitRing? && RoleIdle(s.r) && s.r == HOST_ON.(now := s.r.now)
  {
    hide Reachable;
    hide Calm;
    s := ToHostPulse(devRom, peerRom);
    s := ToHostGuard(s);
    s := ToPulseOver(s);
    s := ToHostBegun(s, 990);
    s := Coast(s, 2_035_010);
    s := ToRing(s);
  }

  /** Software asks for an OUT and an IN; the update phase rouses the thread. */
  lemma ToAsked(s: S.State, data: seq<byte>) returns (s': S.State)
    requires Reachable(s) && Calm(s) && s.h.pc.AwaitRing? && RoleIdle(s.r) && s.r == HOST_ON.(now := s.r.now)
    ensures Reachable(s') && s'.r == s.r && s'.c == s.c && s'.h.ready && s'.h.pc.AwaitRing?
    ensures s'.h.ring == [H.OutTrb(1, 2, data), H.InTrb(1, 1, |data|)] && !s'.i.ready
    ensures !s'.h.ringEvent && !s'.h.addrOut.Changes() && !s'.h.enumDone.Changes() && !s'.h.net.dev.outPending
  {
    hide Reachable;
    hide H.OutTrb;
    hide H.InTrb;
    hide RR.Inv;
    hide HR.Inv;
    ReachableInv(s);
    Reach(s, S.SubmitOut(1, 2, data));
    var s1 := S.Step(s, S.SubmitOut(1, 2, data));
    Reach(s1, S.SubmitIn(1, 1, |data|));
    var s2 := S.Step(s1, S.SubmitIn(1, 1, |data|));
    Reach(s2, S.DoDelta);
    s' := S.Step(s2, S.DoDelta);
  }

  /** The host thread is about to run the head of the ring, with the host side on and the role host. */
  predicate AtHead(s: S.State) {
    && s.h.ready && (s.h.pc.AwaitRing? || s.h.pc.TrbPulse?) && s.h.ring != []
    && s.r == HOST_ON.(now := s.r.now) && Others(s)
  }

  /** Nothing else runs or is pending. */
  predicate Others(s: S.State) {
    && s.c == S.Copier(L.AwaitOut, false, Signal(false, false)) && !s.h.net.dev.outPending
    && !s.i.ready && !s.h.ringEvent && !s.h.addrOut.Changes() && !s.h.enumDone.Changes()
  }

  lemma HeadRuns(h: H.State)
    requires h.ring != [] && h.enable.cur && (h.pc.AwaitRing? || h.pc.TrbPulse?) && !h.net.devEnable
    ensures var h' := H.Resume(h);
            && h'.log.executed == h.log.executed + [H.Execution(h.ring[0], h.net.role)] && h'.ring == h.ring[1..]
            && h'.pc == H.TrbPulse(h.now + 1) && !h'.ready && h'.ringEvent == h.ringEvent && h'.now == h.now
            && h'.addrOut == h.addrOut && h'.enumDone == h.enumDone && h'.net.dev == h.net.dev
            && h'.enable == h.enable
  {
    hide Sent;
    var w := H.Wake(h);
    SD.ExecuteSparesDevice(w);
  }

  lemma RunHead(s: S.State) returns (s': S.State)
    requires Reachable(s) && AtHead(s)
    ensures Reachable(s') && s'.r == s.r && Others(s'.(i := s'.i.(ready := false)))
    ensures s'.h.pc == H.TrbPulse(s.r.now + 1) && !s'.h.ready && s'.h.ring == s.h.ring[1..] && !s'.i.ready
    ensures s'.h.log.executed == s.h.log.executed + [H.Execution(s.h.ring[0], Host)]
  {
    hide Reachable;
    hide RR.Inv;
    hide HR.Inv;
    hide S.Step;
    hide S.Enabled;
    hide H.Resume;
    ReachableInv(s);
    HeadRuns(s.h);
    RunStepsHost(s);
    Reach(s, S.RunHost);
    s' := SettleIrq(S.Step(s, S.RunHost));
  }

  lemma SettleIrq(s: S.State) returns (s': S.State)
    requires Reachable(s)
    ensures Reachable(s') && s'.r == s.r && s'.h == s.h && s'.c == s.c && !s'.i.ready
  {
    hide Reachable;
    hide SM.After;
    s' := s;
    if s.i.ready {
      Reach(s, S.RunCollector);
      s' := S.Step(s, S.RunCollector);
    }
  }

  lemma Deltas(s: S.State)
    requires Others(s) && !s.h.ready && RoleIdle(s.r) && !s.h.pc.AwaitEnable? && !s.h.pc.AwaitRing?
    ensures S.Enabled(s, S.DoDelta)
    ensures var s' := S.Step(s, S.DoDelta);
            && s'.r == s.r && s'.c == s.c && s'.h.pc == s.h.pc && !s'.h.ready && s'.h.ring == s.h.ring
            && s'.h.log.executed == s.h.log.executed && s'.h.now == s.h.now
            && Others(s'.(i := s'.i.(ready := false))) && !s'.h.xferDone.Changes()
  {
    IdleUpdate(s.r);
  }

  lemma Advances(s: S.State)
    requires Others(s) && !s.h.ready && RoleIdle(s.r) && s.h.pc == H.TrbPulse(s.h.now + 1) && SR.Wired(s)
    requires !s.h.xferDone.Changes()
    ensures S.Enabled(s, S.DoAdvance(1))
    ensures var s' := S.Step(s, S.DoAdvance(1));
            && s'.r == s.r.(now := s.r.now + 1) && s'.c == s.c && s'.i == s.i && s'.h.pc == s.h.pc && s'.h.ready
            && s'.h.ring == s.h.ring && s'.h.log.executed == s.h.log.executed && Others(s')
  {
    IdlePasses(s.r, 1);
  }

  /** The completion pulse of one transfer passes, and the thread comes to the next. */
  lemma NextHead(s: S.State) returns (s': S.State)
    requires Reachable(s) && s.r == HOST_ON.(now := s.r.now) && Others(s) && !s.h.ready
    requires s.h.pc == H.TrbPulse(s.r.now + 1) && s.h.ring != []
    ensures Reachable(s') && AtHead(s') && s'.h.ring == s.h.ring && s'.h.log.executed == s.h.log.executed
  {
    hide Reachable;
    hide RR.Inv;
    hide HR.Inv;
    hide S.Step;
    hide S.Enabled;
    ReachableInv(s);
    Deltas(s);
    Reach(s, S.DoDelta);
    var s1 := SettleIrq(S.Step(s, S.DoDelta));
    ReachableInv(s1);
    Advances(s1);
    Reach(s1, S.DoAdvance(1));
    s' := S.Step(s1, S.DoAdvance(1));
  }

  lemma EchoLeft(s: S.State, o: H.Trb, x: H.Trb)
    requires Reachable(s) && o.direction == HostToDevice && o.payload != [] && x.direction == DeviceToHost
    requires |s.h.log.executed| >= 2
    requires s.h.log.executed[|s.h.log.executed| - 2].trb == o
    requires s.h.log.executed[|s.h.log.executed| - 1] == H.Execution(x, Host)
    ensures s.h.rxBuf == o.payload
  {
    hide Reachable;
    hide SR.Wired;
    hide RR.Inv;
    ReachableInv(s);
    assert HP.Refines(s.h);
    hide HR.Inv;
    var e := s.h.log.executed;
    var y := e[..|e| - 1];
    assert HP.ApplyAll(e) == HP.Apply(HP.ApplyAll(y), e[|e| - 1]);
    assert HP.ApplyAll(y) == HP.Apply(HP.ApplyAll(y[..|y| - 1]), y[|y| - 1]);
  }

  /** The whole does carry bulk data out and back: for any data there is a run in which software
      passes it to a bulk OUT, asks for a bulk IN, and finds it in the receive buffer. */
  lemma EchoHappens(devRom: Rom, peerRom: Rom, data: seq<byte>)
    requires data != []
    ensures exists s: S.State :: Reachable(s) && s.h.ring == [] && s.h.rxBuf == data
  {
    hide Reachable;
    hide Calm;
    var s0 := ToIdleHost(devRom, peerRom);
    var s1 := ToAsked(s0, data);
    var o, x := H.OutTrb(1, 2, data), H.InTrb(1, 1, |data|);
    assert o.direction == HostToDevice && o.payload == data && x.direction == DeviceToHost;
    var n := |s1.h.log.executed|;
    hide H.OutTrb;
    hide H.InTrb;
    assert AtHead(s1) by { CalmCopier(s0); }
    var s2 := RunHead(s1);
    var s3 := NextHead(s2);
    var s4 := RunHead(s3);
    EchoLeft(s4, o, x);
  }

  lemma CalmCopier(s: S.State)
    requires Calm(s)
    ensures s.c == S.Copier(L.AwaitOut, false, Signal(false, false))
  {}
}
