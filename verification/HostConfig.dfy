/** What a running enumeration has on record as the active configuration, until it sets one. */
module HostConfig {
  import opened Kernel
  import opened UsbTypes
  import opened Descriptors
  import opened Transport
  import opened TransportProps
  import opened LinkProps
  import opened HostMachine
  import opened HostProps
  import opened Enumeration
  import opened HostRuns

  /** What the first read has left in the host's buffer. */
  function DeviceRead(s: State): seq<byte> {
    if s.log.begunAs == Host then DescriptorBytes(s.net.peer.rom.dev) else []
  }

  /** What the configuration read brings. */
  function ConfigAnswer(s: State): seq<byte> {
    if s.log.configAs == Host then Truncate(s.net.peer.rom.cfg, 255) else []
  }

  /** The buffer after both. */
  function BothRead(s: State): seq<byte> { if ConfigAnswer(s) != [] then ConfigAnswer(s) else DeviceRead(s) }

  function ConfigIn(b: seq<byte>): byte { if |b| >= 9 then b[5] else 0 }

  predicate Between(pc: Pc) { Assigning(pc) || pc.Settling? }

  predicate Reading(pc: Pc) { (pc.SetupSent? || pc.StatusSent?) && pc.req.GetConfig? }

  predicate Closing(pc: Pc) { (pc.SetupSent? || pc.StatusSent?) && (pc.req.GetBos? || pc.req.SetConfig?) }

  ghost predicate ConfigKnown(s: State) {
    && (Between(s.pc) ==> s.descBuf == DeviceRead(s) && s.info.activeConfig == 0)
    && (Reading(s.pc) ==> s.info.activeConfig == 0)
    && (Reading(s.pc) && s.pc.SetupSent? ==>
          && s.descBuf == DeviceRead(s)
          && (s.net.respValid <==> ConfigAnswer(s) != []) && (s.net.respValid ==> s.net.respData == ConfigAnswer(s)))
    && (Reading(s.pc) && s.pc.StatusSent? ==> s.descBuf == BothRead(s))
    && (Closing(s.pc) ==> s.info.activeConfig == ConfigIn(BothRead(s)))
  }

  lemma SendKnown(s: State, r: Request)
    ensures var s' := SendSetup(s, r);
            && s'.net.peer.rom == s.net.peer.rom && s'.info == s.info && s'.descBuf == s.descBuf && s'.log == s.log
            && s'.pc == SetupSent(r, s.now + SETUP_NS)
            && (r.GetConfig? && !s.net.respValid ==>
                  && (s'.net.respValid <==> s.net.role == Host && Truncate(s.net.peer.rom.cfg, 255) != [])
                  && (s'.net.respValid ==> s'.net.respData == Truncate(s.net.peer.rom.cfg, 255)))
  {
    hide Sent;
    var e := ControlExt(s, Setup, r).(setup := RequestPacket(r));
    ControlSend(s.net, HostSide, e, Packed(RequestPacket(r)));
    PeerFollowsRequests(s.net, HostSide, e, Packed(RequestPacket(r)));
  }

  lemma StatusKnown(s: State, r: Request)
    requires ConfigKnown(s) && s.pc.SetupSent? && s.pc.req == r
    ensures ConfigKnown(SendStatus(Collected(s, r), r))
  {
    hide Sent;
    hide DescriptorBytes;
    hide Truncate;
    var w := Collected(s, r);
    ControlSend(w.net, HostSide, ControlExt(w, CtrlStatus, r), [0]);
    PeerFollowsRequests(w.net, HostSide, ControlExt(w, CtrlStatus, r), [0]);
  }

  lemma RequestKnown(s: State, r: Request)
    requires ConfigKnown(s) && s.pc.StatusSent? && s.pc.req == r
    requires r.GetDevice? ==> s.info == NO_DEVICE && s.descBuf == DeviceRead(s)
    ensures ConfigKnown(AfterRequest(s, r, true))
  {
    hide SendSetup;
    hide DescriptorBytes;
    hide Truncate;
    match r {
      case GetDevice => SendKnown(LearnIds(s), SetAddress(s.nextAddr));
      case GetConfig => SendKnown(LearnConfig(s), GetBos);
      case GetBos => SendKnown(s, SetConfig);
      case _ =>
    }
  }

  lemma RingKnown(s: State)
    ensures ConfigKnown(RingTop(s))
  {
    hide Sent;
    hide DescriptorBytes;
    hide Truncate;
  }

  lemma RunKnown(s: State)
    requires ConfigKnown(s) && AnswersCollected(s) && (s.pc.StatusSent? ==> s.pc.ok)
    requires FirstRequest(s.pc) && s.pc.StatusSent? ==> s.info == NO_DEVICE && s.descBuf == DeviceRead(s)
    ensures ConfigKnown(Resume(s))
  {
    hide SendSetup;
    hide SendStatus;
    hide AfterRequest;
    hide RingTop;
    hide DescriptorBytes;
    hide Truncate;
    var w := Wake(s);
    match s.pc {
      case Start | AwaitEnable => SendKnown(Begun(w), GetDevice);
      case SetupSent(r, _) => StatusKnown(s.(ready := false), r);
      case StatusSent(r, _, _) => RequestKnown(w, r);
      case Settling(_) => SendKnown(ConfigAsked(w), GetConfig);
      case EnumPulse(_) | AwaitRing | TrbPulse(_) => RingKnown(w);
    }
  }

  lemma StepKnown(s: State, a: Action)
    requires ConfigKnown(s) && Learning(s) && AnswersCollected(s)
    ensures ConfigKnown(Step(s, a))
  {
    hide Resume;
    hide Copied;
    hide IdsOnRecord;
    hide DescriptorBytes;
    hide Truncate;
    if a.RunHost? { RunKnown(s); }
    if a.RunCopy? { CopyIsolation(s.net); }
  }

  lemma {:induction false} AlwaysKnown(t: seq<State>, a: seq<Action>, n: nat)
    requires Run(t, a) && n < |t|
    ensures ConfigKnown(t[n])
  {
    hide Step;
    hide Enabled;
    hide Learning;
    if n == 0 {
      assert t[0].pc.Start?;
    } else {
      Always(t, a, n - 1);
      AlwaysKnown(t, a, n - 1);
      StepKnown(t[n - 1], a[n - 1]);
    }
  }

  /** Between reading the configuration and setting it, the host has the configuration's own value
      on record if the read was answered to it with nine bytes or more. If it was not answered, the
      host reads the byte out of the device descriptor still in its buffer, the device's subclass. */
  lemma ConfigOnRecord(t: seq<State>, a: seq<Action>, i: nat)
    requires Run(t, a) && i < |t| && Closing(t[i].pc)
    ensures var rom := t[i].net.peer.rom;
            t[i].info.activeConfig ==
              if t[i].log.configAs == Host && rom.cfg != [] then (if |rom.cfg| >= 9 then rom.cfg[5] else 0)
              else if t[i].log.begunAs == Host then rom.dev.bDeviceSubClass
              else 0
  {
    AlwaysKnown(t, a, i);
    DescriptorLayout(t[i].net.peer.rom.dev);
    hide Run;
    hide DescriptorBytes;
  }
}
