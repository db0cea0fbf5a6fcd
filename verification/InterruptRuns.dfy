/** The interrupt block's theorems, over every run: whatever drives its sources. */
module InterruptRuns {
  import opened Kernel
  import opened Registers
  import opened InterruptMachine

  // ----- every rise is raised -----

  /** The step shows a rise of the source. */
  predicate RisesAt(t: seq<State>, k: nat, src: Source)
    requires k + 1 < |t|
  {
    !Level(t[k], src).cur && Level(t[k + 1], src).cur
  }

  /** A rise makes the collector runnable, and only its own run ends that or changes what it sees. */
  lemma PendingStep(s: State, a: InterruptMachine.Action, src: Source)
    requires Enabled(s, a)
    ensures var s' := Step(s, a);
            && (!Level(s, src).cur && Level(s', src).cur ==> s'.ready)
            && (s.ready && Level(s, src).cur && !a.RunCollector? ==> s'.ready && Level(s', src).cur)
  {}

  /** The collector does not run between steps k and i. */
  predicate Uncollected(a: seq<Action>, k: nat, i: nat)
    requires i <= |a|
  {
    forall j | k < j < i :: !a[j].RunCollector?
  }

  lemma {:induction false} RiseStaysPending(t: seq<State>, a: seq<Action>, src: Source, k: nat, i: nat)
    requires InterruptMachine.Run(t, a) && k < i < |t| && RisesAt(t, k, src) && Uncollected(a, k, i)
    ensures t[i].ready && Level(t[i], src).cur
    decreases i
  {
    hide Step;
    hide Enabled;
    assert Enabled(t[i - 1], a[i - 1]) && t[i - 1 + 1] == Step(t[i - 1], a[i - 1]);
    PendingStep(t[i - 1], a[i - 1], src);
    if i > k + 1 { RiseStaysPending(t, a, src, k, i - 1); }
  }

  /** Events that clear no bit and leave the mask alone. */
  predicate Additive(e: Event) {
    !WritesTo(e, 3) && !WritesTo(e, 4)
  }

  predicate Holds(r: Regs, k: nat) { k in r.intrStatus && (k in r.intrEnable ==> r.irq) }

  lemma AdditiveStep(r: Regs, e: Event, k: nat)
    requires Additive(e)
    ensures Applied(r, e).intrEnable == r.intrEnable
    ensures Holds(r, k) || Raises(e, k) ==> Holds(Applied(r, e), k)
  {
    if e.WriteReg? { AlignedIsIndex(e.addr); }
    if e.Raise? && k in e.bits && k in r.intrEnable { assert k in (r.intrStatus + e.bits) * r.intrEnable; }
  }

  lemma {:induction false} AdditiveEvents(r: Regs, ev: seq<Event>, i: nat, k: nat)
    requires forall j | 0 <= j < |ev| :: Additive(ev[j])
    requires i < |ev| && Raises(ev[i], k)
    ensures Holds(After(r, ev), k)
  {
    var n := |ev| - 1;
    if i < n { AdditiveEvents(r, ev[..n], i, k); }
    AdditiveStep(After(r, ev[..n]), ev[n], k);
    hide Applied;
    hide Raises;
    hide Additive;
    hide Holds;
  }

  lemma {:induction false} MaskKept(r: Regs, ev: seq<Event>)
    requires forall j | 0 <= j < |ev| :: Additive(ev[j])
    ensures After(r, ev).intrEnable == r.intrEnable
  {
    if ev != [] {
      var n := |ev| - 1;
      MaskKept(r, ev[..n]);
      AdditiveStep(After(r, ev[..n]), ev[n], 0);
    }
    hide Applied;
    hide Additive;
    hide Holds;
  }

  /** A run of the collector leaves the bit of every source it sees high set, and the level high
      if one of them is enabled. */
  lemma CollectorRaises(r: Regs, enumDone: bool, xferDone: bool, bulkIrq: bool, devAddr: Word, src: Source)
    requires match src case EnumDone => enumDone case XferDone => xferDone case BulkIrq => bulkIrq
    ensures var r' := After(r, CollectorEvents(enumDone, xferDone, bulkIrq, devAddr));
            BitOf(src) in r'.intrStatus && (BitOf(src) in r.intrEnable ==> r'.irq)
  {
    var ev := CollectorEvents(enumDone, xferDone, bulkIrq, devAddr);
    var i := match src
             case EnumDone => 0
             case XferDone => if enumDone then 2 else 0
             case BulkIrq => (if enumDone then 2 else 0) + if xferDone then 1 else 0;
    AdditiveEvents(r, ev, i, BitOf(src));
    MaskKept(r, ev);
    hide After;
    hide Registers.RESET;
  }

  /** Step j is a run of the collector that leaves bit b set, and the level high if b is enabled. */
  predicate SetsStatus(t: seq<State>, a: seq<Action>, j: nat, b: nat)
    requires j < |a| < |t|
  {
    && a[j].RunCollector? && b in t[j + 1].regs.intrStatus
    && (b in t[j].regs.intrEnable ==> t[j + 1].regs.irq)
  }

  /** Each rise of a source has its raise: before the next update phase, and before any time
      passes, the collector runs and leaves the source's bit set, with the level high if that
      bit is enabled. */
  lemma EveryRiseIsRaised(t: seq<State>, a: seq<Action>, src: Source, k: nat, i: nat)
    requires InterruptMachine.Run(t, a) && k < i < |a| && RisesAt(t, k, src)
    requires a[i].DoDelta? || a[i].DoAdvance?
    ensures exists j :: k < j < i && SetsStatus(t, a, j, BitOf(src))
  {
    hide After;
    hide CollectorEvents;
    var j := k + 1;
    while j < i && !a[j].RunCollector?
      invariant k < j <= i
      invariant Uncollected(a, k, j)
    {
      j := j + 1;
    }
    RiseStaysPending(t, a, src, k, j);
    assert Enabled(t[i], a[i]);
    assert j < i;
    var s := t[j];
    assert t[j + 1] == Step(s, a[j]);
    CollectorRaises(s.regs, s.enumDone.cur, s.xferDone.cur, s.bulkIrq.cur, a[j].devAddr, src);
    assert SetsStatus(t, a, j, BitOf(src));
  }

  /** An update phase makes the collector runnable if and only if it shows a change of role_changed,
      enumeration_done or transfer_done, or a rise of bulk_irq. */
  lemma CollectorWakesIff(t: seq<State>, a: seq<Action>, j: nat)
    requires InterruptMachine.Run(t, a) && j < |a| && a[j].DoDelta?
    ensures |t| == |a| + 1
    ensures t[j + 1].ready <==>
              || t[j + 1].roleChanged.cur != t[j].roleChanged.cur
              || t[j + 1].enumDone.cur != t[j].enumDone.cur
              || t[j + 1].xferDone.cur != t[j].xferDone.cur
              || (!t[j].bulkIrq.cur && t[j + 1].bulkIrq.cur)
  {
    assert Enabled(t[j], a[j]) && t[j + 1] == Step(t[j], a[j]);
  }

  lemma {:induction false} NotRaised(r: Regs, ev: seq<Event>, k: nat)
    requires k in After(r, ev).intrStatus && k !in r.intrStatus
    ensures exists i :: 0 <= i < |ev| && Raises(ev[i], k)
  {
    var n := |ev| - 1;
    if k in After(r, ev[..n]).intrStatus { NotRaised(r, ev[..n], k); }
    assert k !in After(r, ev[..n]).intrStatus ==> Raises(ev[n], k);
  }

  lemma OnlySourcesStep(s: State, a: Action, src: Source)
    requires BitOf(src) !in s.regs.intrStatus && BitOf(src) in Step(s, a).regs.intrStatus
    ensures a.RunCollector? && Level(s, src).cur
  {
    hide After;
    if a.RunCollector? { NotRaised(s.regs, Collected(s, a.devAddr), BitOf(src)); }
  }

  /** Nothing else raises those bits: one that comes up does so in a run of the collector that
      sees its source high. */
  lemma OnlySourcesRaise(t: seq<State>, a: seq<Action>, src: Source, j: nat)
    requires InterruptMachine.Run(t, a) && j < |a|
    requires BitOf(src) !in t[j].regs.intrStatus && BitOf(src) in t[j + 1].regs.intrStatus
    ensures a[j].RunCollector? && Level(t[j], src).cur
  {
    assert t[j + 1] == Step(t[j], a[j]);
    hide InterruptMachine.Run;
    OnlySourcesStep(t[j], a[j], src);
    hide Step;
    hide Level;
    hide BitOf;
  }

  /** Only the monitor's raise brings bit 0 up. */
  lemma RoleStep(s: State, a: Action)
    ensures var r, r' := s.regs, Step(s, a).regs;
            && (a.RaiseRole? ==> Holds(r', 0) && r'.intrEnable == r.intrEnable)
            && (0 !in r.intrStatus && 0 in r'.intrStatus ==> a.RaiseRole?)
  {
    hide After;
    if a.RunCollector? {
      if 0 !in s.regs.intrStatus && 0 in Step(s, a).regs.intrStatus {
        NotRaised(s.regs, Collected(s, a.devAddr), ROLE_CHANGED);
      }
    } else if a.RaiseRole? {
      AdditiveStep(s.regs, Raise({ROLE_CHANGED}), ROLE_CHANGED);
    }
  }

  // ----- the register history of a run -----

  /** The register events of the first n steps, in order. */
  function Events(t: seq<State>, a: seq<Action>, n: nat): seq<Event>
    requires n <= |a| < |t|
  {
    if n == 0 then [] else Events(t, a, n - 1) + EventsOf(t[n - 1], a[n - 1])
  }

  lemma {:induction false} AfterConcat(r: Regs, x: seq<Event>, y: seq<Event>)
    ensures After(r, x + y) == After(After(r, x), y)
  {
    if y == [] {
      assert x + y == x;
    } else {
      var m := |y| - 1;
      AfterConcat(r, x, y[..m]);
      assert (x + y)[..|x + y| - 1] == x + y[..m];
    }
  }

  lemma StepEvents(s: State, a: Action)
    ensures Step(s, a).regs == After(s.regs, EventsOf(s, a))
  {
    if a.RaiseRole? || a.Access? { AfterSnoc(s.regs, [], EventsOf(s, a)[0]); }
  }

  lemma {:induction false} RegsAreHistory(t: seq<State>, a: seq<Action>, n: nat)
    requires InterruptMachine.Run(t, a) && n < |t|
    ensures t[n].regs == After(Registers.RESET, Events(t, a, n))
  {
    if n > 0 {
      RegsAreHistory(t, a, n - 1);
      StepEvents(t[n - 1], a[n - 1]);
      AfterConcat(Registers.RESET, Events(t, a, n - 1), EventsOf(t[n - 1], a[n - 1]));
    }
    hide Step;
    hide Enabled;
    hide After;
  }

  /** So status and level of any run are those of the history of its raises and writes. */
  lemma RunIsHistory(t: seq<State>, a: seq<Action>, n: nat)
    requires InterruptMachine.Run(t, a) && n < |t|
    ensures var ev := Events(t, a, n);
            var h := Trace(Registers.RESET, ev);
            && (forall k :: k in t[n].regs.intrStatus <==> RaisedSinceCleared(ev, |ev|, k))
            && (t[n].regs.irq <==> AssertedSinceZero(h, ev, |ev|))
            && (!LevelAgrees(t[n].regs) <==> BrokenSinceMended(h, ev, |ev|))
            && (t[n].regs.irq ==> t[n].regs.intrStatus != {})
  {
    var ev := Events(t, a, n);
    var h := Trace(Registers.RESET, ev);
    RegsAreHistory(t, a, n);
    assert Registers.Run(h, ev);
    forall k ensures k in t[n].regs.intrStatus <==> RaisedSinceCleared(ev, |ev|, k) {
      StatusIsHistory(h, ev, |ev|, k);
    }
    IrqIsHistory(h, ev, |ev|);
    DisagreesIffBroken(h, ev, |ev|);
    hide After;
    hide Events;
    hide RaisedSinceCleared;
    hide AssertedSinceZero;
    hide BrokenSinceMended;
  }
}
