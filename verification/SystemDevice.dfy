/** What reaches the device block in the whole controller: the dead time keeps transfers away from
    it, only late descriptor answers land in it, and it stays unconfigured. */
module SystemDevice {
  import opened Kernel
  import opened UsbTypes
  import opened Descriptors
  import opened Transport
  import opened TransportProps
  import opened SystemMachine
  import opened SystemRuns
  import R = RoleMachine
  import RR = RoleRuns
  import H = HostMachine
  import HP = HostProps
  import HR = HostRuns
  import L = Loopback
  import E = Enumeration

  // ----- transfers -----

  lemma ExecuteSparesDevice(h: H.State)
    requires h.ring != [] && !h.net.devEnable
    ensures H.ExecuteHead(h).net.dev == h.net.dev
  {
    hide Sent;
    SendIsolation(h.net, HostSide, H.TrbExt(h.ring[0]), H.TrbData(h.ring[0]));
  }

  lemma TransferUnderEnable(t: seq<State>, a: seq<Action>, i: nat)
    requires Run(t, a) && i < |a| && t[i + 1].h.log.executed != t[i].h.log.executed
    ensures a[i] == RunHost && t[i].r.mon.hostEnable.cur
  {
    RunStep(t, a, i);
    AlwaysWired(t, a, i);
    HP.ExecutesHeadUnderEnable(t[i].h, HostAction(t[i], a[i]));
    hide Run;
    hide H.Step;
    hide H.Enabled;
  }

  /** With the host side on, the device side is off. */
  lemma HostEnableExcludes(t: seq<State>, a: seq<Action>, i: nat)
    requires Run(t, a) && i < |t| && t[i].h.enable.cur
    ensures !t[i].h.net.devEnable
  {
    hide Run;
    hide HR.Inv;
    AlwaysWired(t, a, i);
    PartsKeepInvariants(t, a, i);
  }

  /** Whenever the device side is switched on, the last transfer began at least 1 us earlier. */
  lemma NoTransferNearDevice(t: seq<State>, a: seq<Action>, i: nat, j: nat)
    requires Run(t, a) && i < j < |a|
    requires t[i + 1].h.log.executed != t[i].h.log.executed
    requires !t[j].r.mon.devEnable.cur && t[j + 1].r.mon.devEnable.cur
    ensures t[j].r.now - t[i].r.now >= 1000
  {
    hide H.Run;
    hide R.Run;
    hide Run;
    hide RR.LowFrom;
    TransferUnderEnable(t, a, i);
    PartsRun(t, a);
    var rt, ra := RoleStates(t), RoleActions(a);
    RR.DeadTime(rt, ra, i, j);
    var k :| i < k <= j && RR.LowFrom(rt, k, j) && rt[j].now - rt[k].now >= 1000;
    RR.TimeMovesOn(rt, ra, i, k);
  }

  // ----- control transfers -----

  /** What a run of the host thread does to the device block, with the host side off whenever the
      device side is on: an answer to a configuration or BOS read, if there is one, lands in it. */
  function RunMove(h: H.State): Move {
    var rom := h.net.peer.rom;
    if !DeviceListens(h.net) then Still
    else if h.pc.Settling? && rom.cfg != [] then Landed(Truncate(rom.cfg, 255))
    else if h.pc.StatusSent? && h.pc.req.GetConfig? && rom.bos != [] then Landed(Truncate(rom.bos, 255))
    else Still
  }

  /** What a request for the setup stage can land. */
  function RequestMove(n: Net, r: H.Request): Move {
    if !DeviceListens(n) then Still
    else match r
      case GetDevice => Landed(DescriptorBytes(n.peer.rom.dev))
      case GetConfig => if n.peer.rom.cfg != [] then Landed(Truncate(n.peer.rom.cfg, 255)) else Still
      case GetBos => if n.peer.rom.bos != [] then Landed(Truncate(n.peer.rom.bos, 255)) else Still
      case SetAddress(_) | SetConfig => Still
  }

  lemma SetupMoves(h: H.State, r: H.Request)
    ensures H.SendSetup(h, r).net.dev == Moved(h.net.dev, RequestMove(h.net, r))
  {
    hide Sent;
    hide Moved;
    var e := H.ControlExt(h, Setup, r).(setup := H.RequestPacket(r));
    SentDevice(h.net, HostSide, e, Packed(H.RequestPacket(r)));
    assert SendMove(h.net, e) == RequestMove(h.net, r);
  }

  lemma StatusMoves(h: H.State, r: H.Request)
    ensures H.SendStatus(h, r).net.dev == h.net.dev
  {
    SentDevice(h.net, HostSide, H.ControlExt(h, CtrlStatus, r), [0]);
    hide Sent;
  }

  lemma FinishMoves(h: H.State, r: H.Request)
    ensures H.AfterRequest(h, r, true).net.dev ==
            Moved(h.net.dev, if r.GetConfig? then RequestMove(h.net, H.GetBos) else Still)
  {
    match r {
      case GetDevice => SetupMoves(H.LearnIds(h), H.SetAddress(h.nextAddr));
      case GetConfig => SetupMoves(H.LearnConfig(h), H.GetBos);
      case GetBos => SetupMoves(h, H.SetConfig);
      case _ =>
    }
    hide H.SendSetup;
  }

  lemma RingMoves(h: H.State)
    requires h.enable.cur ==> !h.net.devEnable
    ensures H.RingTop(h).net.dev == h.net.dev
  {
    if h.enable.cur && h.ring != [] { ExecuteSparesDevice(h); }
    hide H.ExecuteHead;
  }

  lemma ContinueMoves(h: H.State)
    requires (h.pc.AwaitEnable? ==> h.enable.cur) && (h.enable.cur ==> !h.net.devEnable)
    requires h.pc.StatusSent? ==> h.pc.ok
    ensures H.Continue(h).net.dev == Moved(h.net.dev, RunMove(h))
  {
    hide H.SendSetup;
    hide H.SendStatus;
    hide H.RingTop;
    hide H.AfterRequest;
    match h.pc {
      case Start | AwaitEnable => SetupMoves(H.Begun(h), H.GetDevice);
      case SetupSent(r, _) => StatusMoves(h, r);
      case StatusSent(r, _, _) => FinishMoves(h, r);
      case Settling(_) => SetupMoves(H.ConfigAsked(h), H.GetConfig);
      case EnumPulse(_) | AwaitRing | TrbPulse(_) => RingMoves(h);
    }
  }

  lemma WakeMoves(h: H.State)
    ensures var w := H.Wake(h);
            w.net.dev == h.net.dev && w.pc == h.pc && w.enable == h.enable && RunMove(w) == RunMove(h)
            && w.net.devEnable == h.net.devEnable
  {}

  lemma HostRunMoves(t: seq<State>, a: seq<Action>, i: nat)
    requires Run(t, a) && i < |a| && a[i] == RunHost
    ensures t[i + 1].h.net.dev == Moved(t[i].h.net.dev, RunMove(t[i].h))
  {
    RunStep(t, a, i);
    PartsKeepInvariants(t, a, i);
    if t[i].h.enable.cur { HostEnableExcludes(t, a, i); }
    hide Run;
    hide RR.Inv;
    var h := t[i].h;
    assert HP.NoLostWakeup(h) && E.Learning(h);
    hide HR.Inv;
    WakeMoves(h);
    ContinueMoves(H.Wake(h));
    hide H.Wake;
    hide H.Continue;
    hide Moved;
    hide RunMove;
  }

  /** A run of the host thread changes the device block if and only if the role is device with the
      device side on, and the request it sends is the configuration or the BOS read and has an
      answer; that answer then lands in EP2. The first request never does, nor any transfer. */
  lemma HostChangesDeviceIff(t: seq<State>, a: seq<Action>, i: nat)
    requires Run(t, a) && i < |a| && a[i] == RunHost
    ensures var h, d' := t[i].h, t[i + 1].h.net.dev;
            && (d' != h.net.dev <==>
                  && DeviceListens(h.net)
                  && ((h.pc.Settling? && h.net.peer.rom.cfg != [])
                      || (h.pc.StatusSent? && h.pc.req.GetConfig? && h.net.peer.rom.bos != [])))
            && (d' != h.net.dev ==>
                  d' == OutLanded(h.net.dev, Truncate(if h.pc.Settling? then h.net.peer.rom.cfg
                                                      else h.net.peer.rom.bos, 255)))
  {
    hide Run;
    HostRunMoves(t, a, i);
  }

  /** The step that runs a transfer finds the device block disabled, whatever the role has come
      to be, and leaves all of it as it was. */
  lemma TransfersSpareDevice(t: seq<State>, a: seq<Action>, i: nat)
    requires Run(t, a) && i < |a| && t[i + 1].h.log.executed != t[i].h.log.executed
    ensures !t[i].h.net.devEnable && t[i + 1].h.net.dev == t[i].h.net.dev
  {
    TransferUnderEnable(t, a, i);
    AlwaysWired(t, a, i);
    HostEnableExcludes(t, a, i);
    HostRunMoves(t, a, i);
    hide Run;
  }

  lemma BeginsEnabled(h: H.State)
    requires (h.pc.AwaitEnable? ==> h.enable.cur)
    requires var pc := H.Resume(h).pc; pc.SetupSent? && pc.req.GetDevice?
    ensures h.enable.cur
  {
    hide Sent;
    hide H.ControlTo;
    hide Packed;
  }

  /** An enumeration begins only with the host side on, so its first request never reaches the
      device block. */
  lemma EnumerationSparesDevice(t: seq<State>, a: seq<Action>, i: nat)
    requires Run(t, a) && i < |a| && a[i] == RunHost
    requires t[i + 1].h.pc.SetupSent? && t[i + 1].h.pc.req.GetDevice?
    ensures t[i].r.mon.hostEnable.cur && !t[i].h.net.devEnable && t[i + 1].h.net.dev == t[i].h.net.dev
  {
    RunStep(t, a, i);
    AlwaysWired(t, a, i);
    PartsKeepInvariants(t, a, i);
    assert HP.NoLostWakeup(t[i].h);
    BeginsEnabled(t[i].h);
    HostEnableExcludes(t, a, i);
    HostRunMoves(t, a, i);
    hide Run;
    hide HR.Inv;
    hide RR.Inv;
    hide H.Resume;
  }

  // ----- the unconfigured device -----

  /** The device block has only ever taken answers to the host's own reads. */
  ghost predicate Inert(s: State) {
    var d := s.h.net.dev;
    && !d.configured && !d.configuredOut && !d.ep1.hasData && d.delivered == [] && d.addr == 0
    && s.c.pc.AwaitOut? && s.c.bulkIrq == Signal(false, false)
  }

  lemma RunHostInert(s: State)
    requires Inert(s) && Step(s, RunHost).h.net.dev == Moved(s.h.net.dev, RunMove(s.h))
    ensures Inert(Step(s, RunHost))
  {
    hide H.Resume;
  }

  lemma OtherInert(s: State, a: Action)
    requires Inert(s) && !a.RunHost?
    ensures Inert(Step(s, a))
  {
    hide RoleAction;
    hide R.Step;
    hide H.OutTrb;
    hide H.InTrb;
    hide IrqAction;
  }

  /** Nothing on the built link ever asks the device block for anything: it stays unconfigured at
      address 0, hands no payload on, copies none, and bulk_irq never rises. */
  lemma {:induction false} DeviceStaysInert(t: seq<State>, a: seq<Action>, i: nat)
    requires Run(t, a) && i < |t|
    ensures Inert(t[i])
  {
    hide Step;
    hide Enabled;
    hide Moved;
    hide RunMove;
    if i > 0 {
      DeviceStaysInert(t, a, i - 1);
      RunStep(t, a, i - 1);
      if a[i - 1].RunHost? {
        HostRunMoves(t, a, i - 1);
        RunHostInert(t[i - 1]);
      } else {
        OtherInert(t[i - 1], a[i - 1]);
      }
      hide Inert;
    }
  }
}
