/** The pulse that announces a finished enumeration, over every run. */
module HostPulses {
  import opened Kernel
  import opened UsbTypes
  import opened Descriptors
  import opened Transport
  import opened HostMachine
  import opened HostProps
  import opened Enumeration
  import opened HostRuns

  ghost predicate Announcing(s: State) {
    && s.enumDone.next == s.pc.EnumPulse?
    && (s.pc.EnumPulse? ==> s.info.enumerated && s.now <= s.pc.due <= s.now + 10 && (s.ready <==> s.now == s.pc.due))
    && (s.pc.EnumPulse? && s.now + 10 > s.pc.due ==> s.enumDone.cur)
  }

  /** What is left of the pulse. */
  function PulseLeft(s: State): int { if s.pc.EnumPulse? then s.pc.due - s.now else 0 }

  /** The step completes an enumeration. */
  predicate Completes(s: State, s': State) { !s.info.enumerated && s'.info.enumerated }

  lemma RequestPulse(s: State, r: Request)
    requires !s.enumDone.next && !s.info.enumerated && !s.ready && !s.pc.EnumPulse?
    ensures var s' := AfterRequest(s, r, true);
            Announcing(s') && PulseLeft(s') == if Completes(s, s') then 10 else 0
  {
    hide Sent;
    hide Packed;
    hide RequestPacket;
  }

  lemma RingPulse(s: State)
    requires !s.enumDone.next
    ensures var s' := RingTop(s);
            Announcing(s') && PulseLeft(s') == 0 && s'.info == s.info
  {
    hide Sent;
  }

  lemma RunPulse(s: State)
    requires Announcing(s) && s.ready && Learning(s)
    ensures var s' := Resume(s);
            && Announcing(s')
            && PulseLeft(s') == PulseLeft(s) + if Completes(s, s') then 10 else 0
  {
    hide Sent;
    hide AfterRequest;
    hide RingTop;
    hide IdsOnRecord;
    hide Packed;
    hide RequestPacket;
    var w := Wake(s);
    match s.pc {
      case StatusSent(r, _, _) => RequestPulse(w, r);
      case EnumPulse(_) | AwaitRing | TrbPulse(_) => RingPulse(w);
      case _ =>
    }
  }

  lemma OtherPulse(s: State, a: Action)
    requires Announcing(s) && Enabled(s, a) && !a.RunHost?
    ensures var s' := Step(s, a);
            && Announcing(s') && !Completes(s, s')
            && PulseLeft(s') + (if a.DoAdvance? && s.enumDone.cur then a.d else 0) == PulseLeft(s)
  {
    hide Resume;
    hide Copied;
  }

  /** How long enumeration_done was high in the first n steps. */
  function AnnouncedTime(t: seq<State>, a: seq<Action>, n: nat): nat
    requires n <= |a| < |t|
  {
    if n == 0 then 0
    else AnnouncedTime(t, a, n - 1) + if a[n - 1].DoAdvance? && t[n - 1].enumDone.cur then a[n - 1].d else 0
  }

  /** How many enumerations have been completed in the first n steps. */
  function Completed(t: seq<State>, n: nat): nat
    requires n < |t|
  {
    if n == 0 then 0 else Completed(t, n - 1) + if Completes(t[n - 1], t[n]) then 1 else 0
  }

  lemma ResetAnnouncing(t: seq<State>, a: seq<Action>)
    requires Run(t, a)
    ensures |t| == |a| + 1 && Announcing(t[0]) && PulseLeft(t[0]) == 0
  {
    var devRom, peerRom :| t[0] == Reset(devRom, peerRom);
    hide Step;
    hide Enabled;
  }

  lemma {:induction false} PulsesHold(t: seq<State>, a: seq<Action>, n: nat)
    requires Run(t, a) && n < |t|
    ensures |t| == |a| + 1 && Announcing(t[n])
    ensures AnnouncedTime(t, a, n) + PulseLeft(t[n]) == 10 * Completed(t, n)
  {
    hide Run;
    hide Announcing;
    hide PulseLeft;
    hide Step;
    hide Enabled;
    hide Completes;
    hide Learning;
    ResetAnnouncing(t, a);
    if n > 0 {
      RunStep(t, a, n - 1);
      PulsesHold(t, a, n - 1);
      StepPulse(t, a, n - 1);
    }
  }

  lemma StepPulse(t: seq<State>, a: seq<Action>, i: nat)
    requires Run(t, a) && i < |a| && |t| == |a| + 1 && Announcing(t[i])
    ensures Announcing(t[i + 1])
    ensures PulseLeft(t[i + 1]) + (if a[i].DoAdvance? && t[i].enumDone.cur then a[i].d else 0)
         == PulseLeft(t[i]) + if Completes(t[i], t[i + 1]) then 10 else 0
  {
    hide Run;
    hide Announcing;
    hide PulseLeft;
    hide Completes;
    hide Resume;
    hide Learning;
    RunStep(t, a, i);
    Always(t, a, i);
    if a[i].RunHost? { RunPulse(t[i]); } else { OtherPulse(t[i], a[i]); }
  }

  /** Every completed enumeration is announced by exactly 10 ns of enumeration_done, what is left of
      a pulse in progress included, and nothing else is. */
  lemma EnumerationsAnnounced(t: seq<State>, a: seq<Action>, n: nat)
    requires Run(t, a) && n < |t|
    ensures |t| == |a| + 1
    ensures AnnouncedTime(t, a, n) + (if t[n].pc.EnumPulse? then t[n].pc.due - t[n].now else 0) == 10 * Completed(t, n)
  {
    hide Run;
    hide Announcing;
    hide AnnouncedTime;
    hide Completed;
    PulsesHold(t, a, n);
  }
}
