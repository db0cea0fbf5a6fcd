/** The role subsystem's theorems, over every run. */
module RoleRuns {
  import opened Kernel
  import opened UsbTypes
  import opened RoleMachine

  // ----- the invariant -----

  ghost predicate ManagerInv(s: State) {
    var m := s.mgr;
    && m.currentRole.next == m.role
    && m.roleChanged.next == m.pc.InPulse?
    && (m.pc.ManagerStart? ==> m.ready && m.role == RoleNone && !m.roleChanged.cur)
    && (m.pc.AwaitInput? && m.ready ==> !m.roleChanged.cur)
    && (m.pc.InPulse? ==> s.now <= m.pc.due && (m.ready <==> s.now == m.pc.due) && s.now + PULSE_NS >= m.pc.due)
    && (m.pc.InPulse? && (s.now + PULSE_NS > m.pc.due || m.roleChanged.cur) ==>
          m.roleChanged.cur && m.currentRole.cur == m.role)
  }

  ghost predicate MonitorInv(s: State) {
    var m := s.mon;
    && !(m.hostEnable.cur && m.devEnable.cur)
    && (m.pc.MonitorStart? ==> m.ready && m.role == RoleNone && !m.hostEnable.cur && !m.devEnable.cur)
    && (m.pc.MonitorStart? ==> s.mgr.pc.ManagerStart? || (s.mgr.pc.AwaitInput? && !s.mgr.ready))
    && (m.hostEnable.next <==> m.pc.AwaitEdge? && m.role == Host)
    && (m.devEnable.next <==> m.pc.AwaitEdge? && m.role == Device)
    && (m.pc.Guard? ==> s.now <= m.pc.due && (m.ready <==> s.now == m.pc.due) && s.now + GUARD_NS >= m.pc.due)
    && (m.pc.Guard? && s.now + GUARD_NS > m.pc.due ==> !m.hostEnable.cur && !m.devEnable.cur)
    && !(m.hostEnable.cur && m.devEnable.next) && !(m.devEnable.cur && m.hostEnable.next)
    && (m.pc.AwaitEdge? && m.ready ==>
          m.hostEnable.cur == m.hostEnable.next && m.devEnable.cur == m.devEnable.next)
    // an edge that woke the monitor is still being shown, with its role
    && (m.pc.AwaitEdge? && m.ready ==> s.mgr.pc.InPulse? && s.mgr.roleChanged.cur && !s.mgr.ready)
  }

  ghost predicate Inv(s: State) { ManagerInv(s) && MonitorInv(s) }

  lemma KeepsInv(s: State, a: Action)
    requires Inv(s) && Enabled(s, a)
    ensures Inv(Step(s, a))
  {}

  lemma {:induction false} Always(t: seq<State>, a: seq<Action>, i: nat)
    requires Run(t, a) && i < |t|
    ensures Inv(t[i])
  {
    if i > 0 {
      Always(t, a, i - 1);
      KeepsInv(t[i - 1], a[i - 1]);
    }
    hide Step;
    hide Enabled;
  }

  // ----- exclusion -----

  /** At most one enable is high, whichever of the visible and the pending values one looks at. */
  lemma EnablesExclude(t: seq<State>, a: seq<Action>, i: nat)
    requires Run(t, a) && i < |t|
    ensures var m := t[i].mon;
            !((m.hostEnable.cur || m.hostEnable.next) && (m.devEnable.cur || m.devEnable.next))
  {
    Always(t, a, i);
  }

  predicate Low(s: State) { !s.mon.hostEnable.cur && !s.mon.devEnable.cur }

  /** Both enables are low in every state from k to j. */
  predicate LowFrom(t: seq<State>, k: nat, j: nat)
    requires k <= j < |t|
  {
    forall m | k <= m <= j :: Low(t[m])
  }

  predicate PendingRise(s: State) { Rises(s.mon.hostEnable) || Rises(s.mon.devEnable) }

  lemma GuardStep(s: State, a: Action)
    requires Inv(s) && Enabled(s, a) && Step(s, a).mon.pc.Guard?
    ensures var s' := Step(s, a);
            if s.mon.pc.Guard? then
              s'.mon.pc == s.mon.pc && (Low(s) ==> Low(s')) && (s'.now != s.now ==> Low(s)) && s'.now >= s.now
            else s'.now + GUARD_NS == s'.mon.pc.due
  {}

  lemma {:induction false} GuardIsLow(t: seq<State>, a: seq<Action>, i: nat)
    requires Run(t, a) && i < |t| && t[i].mon.pc.Guard?
    ensures t[i].now + GUARD_NS == t[i].mon.pc.due
         || exists k :: 0 <= k <= i && LowFrom(t, k, i) && t[k].now + GUARD_NS <= t[i].mon.pc.due
  {
    if i > 0 {
      Always(t, a, i - 1);
      var p := t[i - 1];
      GuardStep(p, a[i - 1]);
      if p.mon.pc.Guard? {
        GuardIsLow(t, a, i - 1);
        if k :| 0 <= k <= i - 1 && LowFrom(t, k, i - 1) && t[k].now + GUARD_NS <= p.mon.pc.due {
          assert LowFrom(t, k, i);
        } else {
          assert Low(p) ==> LowFrom(t, i - 1, i - 1);
        }
      }
    }
    hide Step;
    hide Enabled;
    hide Inv;
  }

  lemma RiseStep(s: State, a: Action)
    requires Inv(s) && Enabled(s, a) && PendingRise(Step(s, a))
    ensures var s' := Step(s, a);
            && Low(s') && s'.now >= s.now
            && (PendingRise(s) || (s.mon.pc.Guard? && s.now == s.mon.pc.due))
  {}

  lemma {:induction false} RiseAfterDeadTime(t: seq<State>, a: seq<Action>, i: nat)
    requires Run(t, a) && i < |t| && PendingRise(t[i])
    ensures exists k :: 0 <= k <= i && LowFrom(t, k, i) && t[i].now - t[k].now >= GUARD_NS
  {
    hide Step;
    hide Enabled;
    hide Inv;
    if i > 0 {
      Always(t, a, i - 1);
      var p := t[i - 1];
      RiseStep(p, a[i - 1]);
      if PendingRise(p) {
        RiseAfterDeadTime(t, a, i - 1);
        var k :| 0 <= k <= i - 1 && LowFrom(t, k, i - 1) && t[i - 1].now - t[k].now >= GUARD_NS;
        assert LowFrom(t, k, i);
      } else {
        GuardIsLow(t, a, i - 1);
        var k :| 0 <= k <= i - 1 && LowFrom(t, k, i - 1) && t[k].now + GUARD_NS <= p.mon.pc.due;
        assert LowFrom(t, k, i);
      }
    }
  }

  predicate HighOne(s: State) { s.mon.hostEnable.cur || s.mon.devEnable.cur }

  /** Between one enable being high and either rising, both stay low for at least 1 us. */
  lemma DeadTime(t: seq<State>, a: seq<Action>, i: nat, j: nat)
    requires Run(t, a) && i <= j < |a| && HighOne(t[i])
    requires (!t[j].mon.hostEnable.cur && t[j + 1].mon.hostEnable.cur)
          || (!t[j].mon.devEnable.cur && t[j + 1].mon.devEnable.cur)
    ensures exists k :: i < k <= j && LowFrom(t, k, j) && t[j].now - t[k].now >= 1000
  {
    assert t[j + 1] == Step(t[j], a[j]);
    assert PendingRise(t[j]);
    RiseAfterDeadTime(t, a, j);
    var k :| 0 <= k <= j && LowFrom(t, k, j) && t[j].now - t[k].now >= GUARD_NS;
    assert k <= i ==> Low(t[i]);
  }

  lemma {:induction false} TimeMovesOn(t: seq<State>, a: seq<Action>, i: nat, j: nat)
    requires Run(t, a) && i <= j < |t|
    ensures t[i].now <= t[j].now
  {
    if i < j {
      TimeMovesOn(t, a, i, j - 1);
      assert t[j - 1 + 1] == Step(t[j - 1], a[j - 1]);
    }
  }

  lemma {:induction false} GuardGoesOn(t: seq<State>, a: seq<Action>, i: nat, j: nat)
    requires Run(t, a) && i < j < |t| && j <= |a| && a[i] == RunMonitor && t[i].mon.pc.AwaitEdge?
    requires forall m | i < m < j :: a[m] != RunMonitor
    ensures t[j].mon.pc == Guard(t[i].now + 1000)
    decreases j
  {
    hide Run;
    RunLength(t, a);
    RunStep(t, a, j - 1);
    if j > i + 1 { GuardGoesOn(t, a, i, j - 1); }
  }

  /** The monitor switches a side on exactly 1 us after the edge it answered. */
  lemma GuardLasts(t: seq<State>, a: seq<Action>, i: nat, j: nat)
    requires Run(t, a) && i < j < |a| && |t| == |a| + 1 && t[i].mon.pc.AwaitEdge?
    requires a[i] == RunMonitor && a[j] == RunMonitor && forall m | i < m < j :: a[m] != RunMonitor
    ensures t[j].now == t[i].now + 1000
    ensures t[j + 1].mon.hostEnable.next == (t[i].mgr.currentRole.cur == Host)
    ensures t[j + 1].mon.devEnable.next == (t[i].mgr.currentRole.cur == Device)
  {
    hide Run;
    RunStep(t, a, i);
    RunStep(t, a, j);
    GuardGoesOn(t, a, i, j);
    RoleIsHeld(t, a, i, j);
    Always(t, a, j);
    Always(t, a, j + 1);
  }

  lemma {:induction false} RoleIsHeld(t: seq<State>, a: seq<Action>, i: nat, j: nat)
    requires Run(t, a) && i < j < |t| && j <= |a| && a[i] == RunMonitor && t[i].mon.pc.AwaitEdge?
    requires forall m | i < m < j :: a[m] != RunMonitor
    ensures t[j].mon.role == t[i].mgr.currentRole.cur
    decreases j
  {
    hide Run;
    RunLength(t, a);
    RunStep(t, a, j - 1);
    if j > i + 1 { RoleIsHeld(t, a, i, j - 1); }
  }

  // ----- role changes and pulses -----

  /** The roles taken in the first n steps, in order. */
  function AppliedRoles(t: seq<State>, n: nat): seq<Role>
    requires n < |t|
  {
    if n == 0 then []
    else AppliedRoles(t, n - 1) + if t[n].mgr.role != t[n - 1].mgr.role then [t[n].mgr.role] else []
  }

  /** The role shown at each rising edge of role_changed in the first n steps, in order. */
  function EdgeRoles(t: seq<State>, n: nat): seq<Role>
    requires n < |t|
  {
    if n == 0 then []
    else EdgeRoles(t, n - 1) +
         if !t[n - 1].mgr.roleChanged.cur && t[n].mgr.roleChanged.cur then [t[n].mgr.currentRole.cur] else []
  }

  /** A step that takes a role starts the wait for its edge; the edge ends it, showing that role. */
  lemma EdgeStep(s: State, a: Action)
    requires Inv(s) && Enabled(s, a)
    ensures var s' := Step(s, a);
            var pending, pending' := Rises(s.mgr.roleChanged), Rises(s'.mgr.roleChanged);
            if !s.mgr.roleChanged.cur && s'.mgr.roleChanged.cur then
              pending && !pending' && s'.mgr.role == s.mgr.role == s'.mgr.currentRole.cur
            else if s'.mgr.role != s.mgr.role then !pending && pending'
            else pending == pending'
  {}

  /** Edges and role changes match one to one: each edge shows the role just taken, and only
      the newest role can still be waiting for its edge. */
  lemma {:induction false} EdgesAreRoleChanges(t: seq<State>, a: seq<Action>, n: nat)
    requires Run(t, a) && n < |t|
    ensures AppliedRoles(t, n) == EdgeRoles(t, n) + if Rises(t[n].mgr.roleChanged) then [t[n].mgr.role] else []
  {
    hide Step;
    hide Enabled;
    hide Inv;
    if n > 0 {
      EdgesAreRoleChanges(t, a, n - 1);
      Always(t, a, n - 1);
      EdgeStep(t[n - 1], a[n - 1]);
    }
  }

  function LastOf(r: seq<Role>): Role { if r == [] then RoleNone else r[|r| - 1] }

  /** No element repeats the one before it, nor the first `none`. */
  ghost predicate Alternates(r: seq<Role>) {
    forall k | 0 <= k < |r| :: r[k] != LastOf(r[..k])
  }

  lemma AlternatesSnoc(r: seq<Role>, role: Role)
    requires Alternates(r) && role != LastOf(r)
    ensures Alternates(r + [role]) && LastOf(r + [role]) == role
  {
    var q := r + [role];
    forall k | 0 <= k < |q| ensures q[k] != LastOf(q[..k]) {
      assert q[..k] == r[..k];
      assert k == |r| ==> q[..k] == r;
    }
  }

  lemma NoneAlternates()
    ensures Alternates([])
  {}

  lemma RoleIsWritten(t: seq<State>, a: seq<Action>, n: nat)
    requires Run(t, a) && n < |t|
    ensures t[n].mgr.currentRole.next == t[n].mgr.role
    ensures n == 0 ==> t[n].mgr.role == RoleNone
  {
    Always(t, a, n);
    hide MonitorInv;
    hide Step;
    hide Enabled;
  }

  /** Successive roles differ, starting from none, and the last one is both the manager's role
      and the value last written to its output. */
  lemma {:induction false} RolesAlternate(t: seq<State>, a: seq<Action>, n: nat)
    requires Run(t, a) && n < |t|
    ensures Alternates(AppliedRoles(t, n))
    ensures t[n].mgr.role == LastOf(AppliedRoles(t, n)) == t[n].mgr.currentRole.next
    decreases n
  {
    hide Run;
    hide Inv;
    hide Alternates;
    RunLength(t, a);
    RoleIsWritten(t, a, n);
    if n > 0 {
      RolesAlternate(t, a, n - 1);
      if t[n].mgr.role != t[n - 1].mgr.role {
        AlternatesSnoc(AppliedRoles(t, n - 1), t[n].mgr.role);
      } else {
        assert AppliedRoles(t, n) == AppliedRoles(t, n - 1);
      }
    } else {
      NoneAlternates();
    }
  }

  /** How long role_changed was high in the first n steps. */
  function PulseTime(t: seq<State>, a: seq<Action>, n: nat): nat
    requires |t| == |a| + 1 && n <= |a|
  {
    if n == 0 then 0
    else PulseTime(t, a, n - 1) + if a[n - 1].DoAdvance? && t[n - 1].mgr.roleChanged.cur then a[n - 1].d else 0
  }

  function PulseLeft(s: State): int { if s.mgr.pc.InPulse? then s.mgr.pc.due - s.now else 0 }

  lemma PulseStep(s: State, a: Action)
    requires Inv(s) && Enabled(s, a)
    ensures PulseLeft(Step(s, a)) + (if a.DoAdvance? && s.mgr.roleChanged.cur then a.d else 0)
         == PulseLeft(s) + if Step(s, a).mgr.role != s.mgr.role then PULSE_NS else 0
  {}

  /** Every role change is announced for exactly 10 ns. */
  lemma {:induction false} PulsesLast(t: seq<State>, a: seq<Action>, n: nat)
    requires Run(t, a) && n < |t|
    ensures PulseTime(t, a, n) + PulseLeft(t[n]) == 10 * |AppliedRoles(t, n)|
  {
    if n > 0 {
      PulsesLast(t, a, n - 1);
      Always(t, a, n - 1);
      PulseStep(t[n - 1], a[n - 1]);
    }
    hide Step;
    hide Enabled;
    hide Inv;
    hide PulseLeft;
  }

  // ----- arbitration -----

  /** The attachment inputs. */
  datatype Inputs = Inputs(cc: Cc, vbus: bool)

  /** What the environment drove last in the first n steps, from reset nothing attached and no VBUS. */
  function Driven(a: seq<Action>, n: nat): Inputs
    requires n <= |a|
  {
    if n == 0 then Inputs(Disconnected, false)
    else if a[n - 1].SetInputs? then Inputs(a[n - 1].cc, a[n - 1].vbus)
    else Driven(a, n - 1)
  }

  /** What the inputs show at step n: what was driven last before the last update phase. */
  function Shown(a: seq<Action>, n: nat): Inputs
    requires n <= |a|
  {
    if n == 0 then Inputs(Disconnected, false)
    else if a[n - 1].DoDelta? then Driven(a, n - 1)
    else Shown(a, n - 1)
  }

  /** Since the last update phase a role has been asked for. */
  predicate AskedSinceUpdate(a: seq<Action>, n: nat)
    requires n <= |a|
  {
    n > 0 && !a[n - 1].DoDelta? && (a[n - 1].RequestRole? || AskedSinceUpdate(a, n - 1))
  }

  /** The manager sees the inputs the environment drove, from the next update phase on. */
  lemma {:induction false} InputsAreShown(t: seq<State>, a: seq<Action>, n: nat)
    requires Run(t, a) && n < |t|
    ensures |t| == |a| + 1
    ensures Inputs(t[n].cc.cur, t[n].vbus.cur) == Shown(a, n)
    ensures Inputs(t[n].cc.next, t[n].vbus.next) == Driven(a, n)
    ensures t[n].requestEvent == AskedSinceUpdate(a, n)
  {
    if n == 0 {
      assert |t| == |a| + 1;
    } else {
      hide Run;
      RunLength(t, a);
      RunStep(t, a, n - 1);
      InputsAreShown(t, a, n - 1);
    }
  }

  /** An update phase wakes the manager if and only if it is waiting for input, and either the
      inputs shown change there or a role has been asked for since the one before. */
  lemma WakesIff(t: seq<State>, a: seq<Action>, j: nat)
    requires Run(t, a) && j < |a| && a[j].DoDelta?
    ensures |t| == |a| + 1
    ensures WakeupDue(t[j + 1]) <==>
            t[j].mgr.pc.AwaitInput? && (Shown(a, j + 1) != Shown(a, j) || AskedSinceUpdate(a, j))
  {
    hide Run;
    RunLength(t, a);
    RunStep(t, a, j);
    InputsAreShown(t, a, j);
    InputsAreShown(t, a, j + 1);
  }

  /** Step j is a wakeup of the manager: it looks at inputs and requests. */
  predicate Wakes(t: seq<State>, a: seq<Action>, j: nat)
    requires |t| == |a| + 1 && j < |a|
  {
    a[j] == RunManager && t[j].mgr.pc.AwaitInput?
  }

  /** A request for r has been made and no wakeup has come since. */
  predicate Outstanding(t: seq<State>, a: seq<Action>, n: nat, r: Role)
    requires |t| == |a| + 1 && n <= |a|
  {
    n > 0 && !Wakes(t, a, n - 1) && (a[n - 1] == RequestRole(r) || Outstanding(t, a, n - 1, r))
  }

  /** Device requests win over host requests, and both over the attachment, which counts only
      with VBUS present. */
  function Arbitrate(cc: Cc, vbus: bool, hostAsked: bool, deviceAsked: bool): Role {
    if deviceAsked then Device
    else if hostAsked then Host
    else if !vbus then RoleNone
    else match cc case UfpAttached => Host case DfpAttached => Device case Disconnected => RoleNone
  }

  /** The arbiter's verdict at the last wakeup among the first n steps. */
  function Verdict(t: seq<State>, a: seq<Action>, n: nat): Role
    requires |t| == |a| + 1 && n <= |a|
  {
    if n == 0 then RoleNone
    else if Wakes(t, a, n - 1) then
      Arbitrate(Shown(a, n - 1).cc, Shown(a, n - 1).vbus,
                Outstanding(t, a, n - 1, Host), Outstanding(t, a, n - 1, Device))
    else Verdict(t, a, n - 1)
  }

  /** A wakeup takes the arbiter's verdict and uses the requests up; no other step does either. */
  lemma ManagerStep(s: State, a: Action)
    ensures var m, m' := s.mgr, Step(s, a).mgr;
            if a == RunManager && m.pc.AwaitInput? then
              && m'.role == Arbitrate(s.cc.cur, s.vbus.cur, m.hostRequested, m.deviceRequested)
              && !m'.hostRequested && !m'.deviceRequested
            else
              && m'.role == m.role
              && m'.hostRequested == (m.hostRequested || a == RequestRole(Host))
              && m'.deviceRequested == (m.deviceRequested || a == RequestRole(Device))
  {}

  /** The role is the arbiter's verdict at the last wakeup, over the inputs the environment had
      driven by the update phase before it and the requests made since the wakeup before, those
      made during a pulse included. */
  lemma {:induction false} RoleIsVerdict(t: seq<State>, a: seq<Action>, n: nat)
    requires Run(t, a) && n < |t|
    ensures t[n].mgr.role == Verdict(t, a, n)
    ensures t[n].mgr.hostRequested == Outstanding(t, a, n, Host)
    ensures t[n].mgr.deviceRequested == Outstanding(t, a, n, Device)
  {
    hide Run;
    hide Shown;
    hide Enabled;
    hide Step;
    hide Arbitrate;
    RunLength(t, a);
    if n == 0 {
      RunStarts(t, a);
    } else {
      RoleIsVerdict(t, a, n - 1);
      InputsAreShown(t, a, n - 1);
      RunStep(t, a, n - 1);
      ManagerStep(t[n - 1], a[n - 1]);
    }
  }

  // ----- what becomes of a request -----

  lemma RunStarts(t: seq<State>, a: seq<Action>)
    requires Run(t, a)
    ensures |t| > 0 && t[0] == RESET
  {
    hide Step;
    hide Enabled;
  }

  lemma RunLength(t: seq<State>, a: seq<Action>)
    requires Run(t, a)
    ensures |t| == |a| + 1
  {
    hide Enabled;
    hide Step;
  }

  lemma RunStep(t: seq<State>, a: seq<Action>, i: nat)
    requires Run(t, a) && i < |a|
    ensures Enabled(t[i], a[i]) && t[i + 1] == Step(t[i], a[i])
  {
    hide Enabled;
    hide Step;
  }

  /** Step j is the first update phase after step i. */
  predicate FirstUpdate(a: seq<Action>, i: nat, j: nat)
    requires j < |a|
  {
    i < j && a[j].DoDelta? && forall m | i < m < j :: !a[m].DoDelta?
  }

  /** The manager is about to look at inputs and requests. */
  predicate WakeupDue(s: State) { s.mgr.ready && s.mgr.pc.AwaitInput? }

  lemma {:induction false} NotifiedUntilUpdate(t: seq<State>, a: seq<Action>, i: nat, j: nat, n: nat)
    requires Run(t, a) && j < |a| && FirstUpdate(a, i, j) && i < n <= j && a[i].RequestRole?
    ensures t[n].requestEvent
    decreases n
  {
    hide Run;
    RunLength(t, a);
    RunStep(t, a, n - 1);
    if n > i + 1 { NotifiedUntilUpdate(t, a, i, j, n - 1); }
  }

  /** Where the manager is at the first update phase after a request decides its fate: that phase
      wakes the manager if and only if it is waiting for input there. */
  lemma RequestWakesIff(t: seq<State>, a: seq<Action>, i: nat, j: nat)
    requires Run(t, a) && j < |a| && FirstUpdate(a, i, j) && a[i].RequestRole?
    ensures WakeupDue(t[j + 1]) <==> t[j].mgr.pc.AwaitInput?
  {
    hide Run;
    RunLength(t, a);
    NotifiedUntilUpdate(t, a, i, j, j);
    RunStep(t, a, j);
  }

  /** The environment neither writes the inputs nor asks for a role between steps i and n. */
  predicate Undisturbed(a: seq<Action>, i: nat, n: nat)
    requires n <= |a|
  {
    forall m | i < m < n :: !a[m].SetInputs? && !a[m].RequestRole?
  }

  predicate Asked(s: State, r: Role) {
    (r == Host && s.mgr.hostRequested) || (r == Device && s.mgr.deviceRequested)
  }

  /** Where a request is once its update phase has passed and nothing new has come. */
  ghost predicate RequestFate(s: State, r: Role, missed: bool) {
    && !s.requestEvent && !s.cc.Changes() && !s.vbus.Changes()
    && (missed ==> Asked(s, r) && !WakeupDue(s))
    && (!missed && Asked(s, r) ==> WakeupDue(s))
  }

  lemma RequestFateStep(s: State, a: Action, r: Role, missed: bool)
    requires RequestFate(s, r, missed) && Enabled(s, a) && !a.SetInputs? && !a.RequestRole?
    ensures RequestFate(Step(s, a), r, missed)
  {}

  lemma UpdateRequestFate(s: State, r: Role)
    requires s.requestEvent && Enabled(s, DoDelta) && ManagerInv(s)
    ensures RequestFate(Delta(s), r, Asked(s, r) && s.mgr.pc.InPulse?)
  {}

  lemma {:induction false} RequestFateHolds(t: seq<State>, a: seq<Action>, i: nat, j: nat, n: nat, r: Role)
    requires Run(t, a) && j < n < |t| && FirstUpdate(a, i, j) && a[i] == RequestRole(r) && Undisturbed(a, i, n)
    ensures RequestFate(t[n], r, Asked(t[j], r) && t[j].mgr.pc.InPulse?)
    decreases n
  {
    hide Run;
    RunLength(t, a);
    RunStep(t, a, n - 1);
    hide RequestFate;
    if n == j + 1 {
      NotifiedUntilUpdate(t, a, i, j, j);
      Always(t, a, j);
      UpdateRequestFate(t[j], r);
    } else {
      RequestFateHolds(t, a, i, j, n - 1, r);
      RequestFateStep(t[n - 1], a[n - 1], r, Asked(t[j], r) && t[j].mgr.pc.InPulse?);
    }
    hide Enabled;
    hide MonitorInv;
  }

  /** A request is left on record with nothing to bring it up if and only if no wakeup had taken
      it by its update phase and the manager was in its pulse there. It then stays so, for any
      length of time, until the inputs change or another request comes. */
  lemma RequestLeftIff(t: seq<State>, a: seq<Action>, i: nat, j: nat, n: nat, r: Role)
    requires Run(t, a) && j < n < |t| && r != RoleNone
    requires FirstUpdate(a, i, j) && a[i] == RequestRole(r) && Undisturbed(a, i, n)
    ensures Outstanding(t, a, n, r) && !WakeupDue(t[n]) <==> Outstanding(t, a, j, r) && t[j].mgr.pc.InPulse?
  {
    RequestFateHolds(t, a, i, j, n, r);
    RoleIsVerdict(t, a, j);
    RoleIsVerdict(t, a, n);
    hide Run;
    hide Outstanding;
    hide Verdict;
  }

  // ----- enables and role -----

  /** The role the monitor saw at the last edge it answered in the first n steps. */
  function ServedRole(t: seq<State>, a: seq<Action>, n: nat): Role
    requires |t| == |a| + 1 && n <= |a|
  {
    if n == 0 then RoleNone
    else if a[n - 1] == RunMonitor && t[n - 1].mon.pc.AwaitEdge? then t[n - 1].mgr.currentRole.cur
    else ServedRole(t, a, n - 1)
  }

  lemma {:induction false} MonitorHoldsServed(t: seq<State>, a: seq<Action>, n: nat)
    requires Run(t, a) && n < |t|
    ensures t[n].mon.role == ServedRole(t, a, n)
  {
    if n > 0 {
      MonitorHoldsServed(t, a, n - 1);
      assert t[n] == Step(t[n - 1], a[n - 1]);
    }
  }

  /** The monitor waits, no edge is on its way to it, and its outputs show what it wrote. */
  predicate Parked(s: State) {
    && s.mon.pc.AwaitEdge? && !s.mon.ready && !Rises(s.mgr.roleChanged)
    && !s.mon.hostEnable.Changes() && !s.mon.devEnable.Changes() && !s.mgr.currentRole.Changes()
  }

  /** The enables match the role in force. */
  predicate Agrees(s: State) {
    && (s.mon.hostEnable.cur <==> s.mgr.currentRole.cur == Host)
    && (s.mon.devEnable.cur <==> s.mgr.currentRole.cur == Device)
  }

  /** With no assumption at all, a parked monitor's enables match the role at the last edge it
      answered, so they match the role in force if and only if that is still the role. */
  lemma EnablesFollowServedRole(t: seq<State>, a: seq<Action>, i: nat)
    requires Run(t, a) && i < |t| && Parked(t[i])
    ensures t[i].mon.hostEnable.cur <==> ServedRole(t, a, i) == Host
    ensures t[i].mon.devEnable.cur <==> ServedRole(t, a, i) == Device
    ensures Agrees(t[i]) <==> ServedRole(t, a, i) == t[i].mgr.role
  {
    Always(t, a, i);
    MonitorHoldsServed(t, a, i);
  }

  /** No role is applied while the monitor sits in its 1 us wait. */
  predicate Spaced(t: seq<State>, a: seq<Action>)
    requires |t| == |a| + 1
  {
    forall i | 0 <= i < |a| :: t[i].mon.pc.Guard? ==> t[i + 1].mgr.role == t[i].mgr.role
  }

  /** The monitor knows the role, or is about to be told it. */
  ghost predicate Informed(s: State) {
    && (s.mon.pc.Guard? ==> s.mon.role == s.mgr.role && !Rises(s.mgr.roleChanged))
    && (s.mon.pc.AwaitEdge? && !Rises(s.mgr.roleChanged) && !s.mon.ready ==> s.mon.role == s.mgr.role)
    && (s.mon.pc.AwaitEdge? && s.mon.ready ==> s.mgr.currentRole.cur == s.mgr.role)
    && (s.mon.pc.MonitorStart? ==> s.mgr.role == RoleNone && !Rises(s.mgr.roleChanged))
  }

  lemma KeepsInformed(s: State, a: Action)
    requires Inv(s) && Informed(s) && Enabled(s, a)
    requires s.mon.pc.Guard? ==> Step(s, a).mgr.role == s.mgr.role
    ensures Informed(Step(s, a))
  {}

  lemma {:induction false} SpacedInformed(t: seq<State>, a: seq<Action>, i: nat)
    requires Run(t, a) && Spaced(t, a) && i < |t|
    ensures Informed(t[i])
  {
    hide Step;
    hide Enabled;
    if i > 0 {
      SpacedInformed(t, a, i - 1);
      Always(t, a, i - 1);
      assert t[i - 1].mon.pc.Guard? ==> t[i - 1 + 1].mgr.role == t[i - 1].mgr.role;
      KeepsInformed(t[i - 1], a[i - 1]);
    }
  }

  /** If no role is applied inside a guard time, a parked monitor's enables match the role. */
  lemma SpacedEnablesAgree(t: seq<State>, a: seq<Action>, i: nat)
    requires Run(t, a) && Spaced(t, a) && i < |t| && Parked(t[i])
    ensures Agrees(t[i])
  {
    Always(t, a, i);
    SpacedInformed(t, a, i);
  }

  /** No role is applied in the steps from i to n. */
  predicate RoleKept(t: seq<State>, i: nat, n: nat)
    requires n < |t|
  {
    forall m | i <= m < n :: t[m + 1].mgr.role == t[m].mgr.role
  }

  lemma ParkedStep(s: State, a: Action)
    requires Inv(s) && Parked(s) && Enabled(s, a) && Step(s, a).mgr.role == s.mgr.role
    ensures Parked(Step(s, a)) && (Agrees(Step(s, a)) <==> Agrees(s))
  {}

  /** A disagreement lasts: a parked monitor's enables go on contradicting the role, or matching
      it, whatever happens and however long, until a role is applied. */
  lemma {:induction false} ParkedPersists(t: seq<State>, a: seq<Action>, i: nat, n: nat)
    requires Run(t, a) && i <= n < |t| && Parked(t[i]) && RoleKept(t, i, n)
    ensures Parked(t[n]) && (Agrees(t[n]) <==> Agrees(t[i]))
    decreases n
  {
    hide Run;
    hide Step;
    hide Enabled;
    hide Inv;
    hide Parked;
    hide Agrees;
    RunLength(t, a);
    if i < n {
      ParkedPersists(t, a, i, n - 1);
      Always(t, a, n - 1);
      RunStep(t, a, n - 1);
      assert t[n - 1 + 1].mgr.role == t[n - 1].mgr.role;
      ParkedStep(t[n - 1], a[n - 1]);
    }
  }
}
