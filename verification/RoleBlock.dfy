/** The role manager and the role-switch monitor as objects, and the kernel that runs them. */
module RoleBlock {
  import opened Kernel
  import opened UsbTypes
  import opened RoleMachine
  import RR = RoleRuns

  class RoleManager {
    var pc: ManagerPc
    var ready: bool
    var role: Role
    var hostRequested: bool
    var deviceRequested: bool
    var currentRole: Signal<Role>
    var roleChanged: Signal<bool>

    constructor ()
      ensures State() == RESET.mgr
    {
      pc, ready, role, hostRequested, deviceRequested := ManagerStart, true, RoleNone, false, false;
      currentRole, roleChanged := Signal(RoleNone, RoleNone), Signal(false, false);
    }

    ghost function State(): Manager
      reads this
    {
      Manager(pc, ready, role, hostRequested, deviceRequested, currentRole, roleChanged)
    }

    method Request(r: Role)
      modifies `hostRequested, `deviceRequested
      ensures State() == Requested(old(State()), r)
    {
      if r == Host { hostRequested := true; }
      if r == Device { deviceRequested := true; }
    }

    method Apply(newRole: Role, now: nat)
      modifies this
      ensures State() == ApplyRole(old(State()), newRole, now)
    {
      if newRole == role {
        pc := AwaitInput;
        return;
      }
      role := newRole;
      currentRole := currentRole.Write(newRole);
      roleChanged := roleChanged.Write(true);
      pc := InPulse(now + PULSE_NS);
    }

    /** One uninterrupted run of the detection thread. */
    method Resume(cc: Cc, vbus: bool, now: nat)
      modifies this
      ensures State() == ManagerRun(old(State()), cc, vbus, now)
    {
      ready := false;
      match pc {
        case ManagerStart =>
          currentRole := currentRole.Write(RoleNone);
          roleChanged := roleChanged.Write(false);
          pc := AwaitInput;
        case AwaitInput =>
          var desired := RoleNone;
          if cc == UfpAttached && vbus { desired := Host; } else if cc == DfpAttached && vbus { desired := Device; }
          if desired != role || hostRequested || deviceRequested {
            if hostRequested { desired := Host; }
            if deviceRequested { desired := Device; }
            hostRequested, deviceRequested := false, false;
            Apply(desired, now);
          }
        case InPulse(_) =>
          roleChanged := roleChanged.Write(false);
          pc := AwaitInput;
      }
    }

    method Update(woken: bool)
      modifies this
      ensures State() == ManagerDelta(old(State()), woken)
    {
      if pc.AwaitInput? && woken { ready := true; }
      currentRole, roleChanged := currentRole.Update(), roleChanged.Update();
    }
  }

  class RoleSwitchMonitor {
    var pc: MonitorPc
    var ready: bool
    var role: Role
    var hostEnable: Signal<bool>
    var devEnable: Signal<bool>

    constructor ()
      ensures State() == RESET.mon
    {
      pc, ready, role := MonitorStart, true, RoleNone;
      hostEnable, devEnable := Signal(false, false), Signal(false, false);
    }

    ghost function State(): Monitor
      reads this
    {
      Monitor(pc, ready, role, hostEnable, devEnable)
    }

    method DisableBoth()
      modifies `hostEnable, `devEnable
      ensures State() == old(State()).(hostEnable := old(hostEnable).Write(false),
                                       devEnable := old(devEnable).Write(false))
    {
      hostEnable := hostEnable.Write(false);
      devEnable := devEnable.Write(false);
    }

    /** One uninterrupted run of the monitor thread; says whether it raises the role-changed interrupt. */
    method Resume(shownRole: Role, now: nat) returns (raises: bool)
      modifies this
      ensures State() == MonitorRun(old(State()), shownRole, now)
      ensures raises == old(pc.Guard?)
    {
      ready := false;
      raises := false;
      match pc {
        case MonitorStart =>
          DisableBoth();
          pc := AwaitEdge;
        case AwaitEdge =>
          role := shownRole;
          DisableBoth();
          pc := Guard(now + GUARD_NS);
        case Guard(_) =>
          if role == Host {
            hostEnable := hostEnable.Write(true);
          } else if role == Device {
            devEnable := devEnable.Write(true);
          }
          raises := true;
          pc := AwaitEdge;
      }
    }

    method Update(edge: bool)
      modifies this
      ensures State() == MonitorDelta(old(State()), edge)
    {
      if pc.AwaitEdge? && edge { ready := true; }
      hostEnable, devEnable := hostEnable.Update(), devEnable.Update();
    }
  }

  /** Both threads, the input signals and the clock. */
  class RoleSubsystem {
    const mgr: RoleManager
    const mon: RoleSwitchMonitor
    var now: nat
    var cc: Signal<Cc>
    var vbus: Signal<bool>
    var requestEvent: bool

    constructor ()
      ensures State() == RESET && fresh(mgr) && fresh(mon)
    {
      mgr := new RoleManager();
      mon := new RoleSwitchMonitor();
      now, requestEvent := 0, false;
      cc, vbus := Signal(Disconnected, Disconnected), Signal(false, false);
    }

    ghost function State(): State
      reads this, mgr, mon
    {
      RoleMachine.State(now, cc, vbus, requestEvent, mgr.State(), mon.State())
    }

    method RequestRole(r: Role)
      modifies this`requestEvent, mgr
      ensures State() == Step(old(State()), RoleMachine.RequestRole(r))
    {
      mgr.Request(r);
      requestEvent := true;
    }

    /** The external inputs are copied to the internal signals. */
    method ForwardInputs(c: Cc, v: bool)
      modifies this`cc, this`vbus
      ensures State() == Step(old(State()), SetInputs(c, v))
      ensures cc == Signal(old(cc.cur), c) && vbus == Signal(old(vbus.cur), v)
    {
      cc := cc.Write(c);
      vbus := vbus.Write(v);
    }

    /** Takes one step of the role machine on the objects. */
    method Dispatch(a: Action)
      requires Enabled(State(), a)
      modifies this, mgr, mon
      ensures State() == Step(old(State()), a)
    {
      match a {
        case OtherRuns =>
        case SetInputs(c, v) => ForwardInputs(c, v);
        case RequestRole(r) => RequestRole(r);
        case RunManager => mgr.Resume(cc.cur, vbus.cur, now);
        case RunMonitor => var _ := mon.Resume(mgr.currentRole.cur, now);
        case DoDelta =>
          var woken := cc.Changes() || vbus.Changes() || requestEvent;
          var edge := Rises(mgr.roleChanged);
          mgr.Update(woken);
          mon.Update(edge);
          cc, vbus, requestEvent := cc.Update(), vbus.Update(), false;
        case DoAdvance(d) =>
          now := now + d;
          if mgr.pc.InPulse? && mgr.pc.due == now { mgr.ready := true; }
          if mon.pc.Guard? && mon.pc.due == now { mon.ready := true; }
      }
    }

    /** Any allowed schedule, carried out on the objects, is a run of the role machine: it ends
        with at most one enable high, and with the role the arbiter last chose, written out. */
    method Execute(a: seq<Action>, ghost t: seq<State>)
      requires Run(t, a) && State() == t[0]
      modifies this, mgr, mon
      ensures State() == t[|a|]
      ensures !((mon.hostEnable.cur || mon.hostEnable.next) && (mon.devEnable.cur || mon.devEnable.next))
      ensures mgr.role == RR.Verdict(t, a, |a|) == mgr.currentRole.next
      ensures mgr.hostRequested == RR.Outstanding(t, a, |a|, Host)
      ensures mgr.deviceRequested == RR.Outstanding(t, a, |a|, Device)
    {
      var i := 0;
      while i < |a|
        invariant 0 <= i <= |a|
        invariant State() == t[i]
      {
        Dispatch(a[i]);
        i := i + 1;
      }
      RR.EnablesExclude(t, a, |a|);
      RR.RoleIsVerdict(t, a, |a|);
      RR.RolesAlternate(t, a, |a|);
    }
  }
}
