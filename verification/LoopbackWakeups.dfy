/** Payloads the copy thread never notices: its wait misses a notification that comes inside its
    10 ns pulse, and uses one up that finds the block not configured. */
module LoopbackWakeups {
  import opened Kernel
  import opened UsbTypes
  import opened Transport
  import opened TransportProps
  import opened Loopback
  import opened LoopbackRuns

  /** Step j is the first update phase after step i. */
  predicate FirstUpdate(a: seq<Action>, i: nat, j: nat)
    requires j < |a|
  {
    i < j && a[j].DoDelta? && forall m | i < m < j :: !a[m].DoDelta?
  }

  /** No payload lands between steps i and n. */
  predicate NothingLands(t: seq<State>, a: seq<Action>, i: nat, n: nat)
    requires n <= |a| < |t|
  {
    forall m | i < m < n :: !Lands(t[m], a[m])
  }

  /** The copy thread runs, finds the block not configured, and has used its notification up. */
  predicate Skips(s: State, a: Action) { a.RunCopy? && s.pc.AwaitOut? && !s.net.dev.configured }

  predicate Skipped(t: seq<State>, a: seq<Action>, j: nat, n: nat)
    requires n <= |a| < |t|
  {
    exists m | j < m < n :: Skips(t[m], a[m])
  }

  /** A payload sits in EP2 and nothing will make the copy thread look at it. */
  predicate Stuck(s: State) {
    s.net.dev.ep2.hasData && !s.net.dev.outPending && !(s.ready && s.pc.AwaitOut?)
  }

  lemma LandingNotifies(s: State, a: Action)
    requires Lands(s, a)
    ensures Step(s, a).net.dev.outPending
  {
    if a.FromLink? || a.HostSends? {
      StepDevice(s, a);
      hide Step;
    }
  }

  lemma NoticeStays(s: State, a: Action)
    requires s.net.dev.outPending && !a.DoDelta?
    ensures Step(s, a).net.dev.outPending
  {
    if a.FromLink? || a.HostSends? {
      StepDevice(s, a);
      hide Step;
    }
  }

  lemma RunLength(t: seq<State>, a: seq<Action>)
    requires Run(t, a)
    ensures |t| == |a| + 1
  {
    hide Enabled;
    hide Step;
    hide Reset;
  }

  lemma RunStep(t: seq<State>, a: seq<Action>, i: nat)
    requires Run(t, a) && i < |a|
    ensures Enabled(t[i], a[i]) && t[i + 1] == Step(t[i], a[i])
  {
    hide Enabled;
    hide Step;
    hide Reset;
  }

  lemma {:induction false} NotifiedUntilUpdate(t: seq<State>, a: seq<Action>, i: nat, j: nat, n: nat)
    requires Run(t, a) && j < |a| && FirstUpdate(a, i, j) && i < n <= j && Lands(t[i], a[i])
    ensures t[n].net.dev.outPending
    decreases n
  {
    hide Run;
    hide Lands;
    hide Step;
    hide Enabled;
    hide Delta;
    RunLength(t, a);
    RunStep(t, a, n - 1);
    if n > i + 1 {
      NotifiedUntilUpdate(t, a, i, j, n - 1);
      NoticeStays(t[n - 1], a[n - 1]);
    } else {
      LandingNotifies(t[i], a[i]);
    }
  }

  /** Where the payload is once its update phase has passed. `full` says whether it was still in
      EP2 then, `missed` whether it has been missed since. */
  ghost predicate Fate(s: State, full: bool, missed: bool) {
    && !s.net.dev.outPending
    && (missed ==> Stuck(s))
    && (!missed && s.net.dev.ep2.hasData ==> s.ready && s.pc.AwaitOut?)
    && (!missed && full && !s.net.dev.ep2.hasData ==> s.net.dev.configured)
    && (!full ==> !s.net.dev.ep2.hasData && !missed)
  }

  lemma FateStep(s: State, a: Action, full: bool, missed: bool)
    requires Fate(s, full, missed) && Enabled(s, a) && !Lands(s, a)
    ensures Fate(Step(s, a), full, missed || (full && Skips(s, a)))
  {
    if a.FromLink? || a.HostSends? {
      StepDevice(s, a);
      hide Step;
    }
  }

  lemma UpdateFate(s: State)
    requires s.net.dev.outPending && !s.ready
    ensures Fate(Delta(s), s.net.dev.ep2.hasData, s.net.dev.ep2.hasData && s.pc.CopyPulse?)
  {}

  lemma SkippedGrows(t: seq<State>, a: seq<Action>, j: nat, n: nat)
    requires j <= n < |t| == |a| + 1 && j < |a|
    ensures !Skipped(t, a, j, j + 1)
    ensures j < n < |a| ==> (Skipped(t, a, j, n + 1) <==> Skipped(t, a, j, n) || Skips(t[n], a[n]))
  {
    hide Skips;
  }

  lemma FateStarts(t: seq<State>, a: seq<Action>, i: nat, j: nat)
    requires Run(t, a) && j < |a| && FirstUpdate(a, i, j) && Lands(t[i], a[i])
    ensures var full := t[j].net.dev.ep2.hasData;
            Fate(t[j + 1], full, full && (t[j].pc.CopyPulse? || Skipped(t, a, j, j + 1)))
  {
    hide Run;
    hide Fate;
    hide Lands;
    RunLength(t, a);
    RunStep(t, a, j);
    NotifiedUntilUpdate(t, a, i, j, j);
    UpdateFate(t[j]);
    SkippedGrows(t, a, j, j);
  }

  lemma FateGoesOn(t: seq<State>, a: seq<Action>, j: nat, n: nat, full: bool, pulse: bool)
    requires Run(t, a) && j < n < |a| && !Lands(t[n], a[n])
    requires Fate(t[n], full, full && (pulse || Skipped(t, a, j, n)))
    ensures Fate(t[n + 1], full, full && (pulse || Skipped(t, a, j, n + 1)))
  {
    hide Run;
    RunLength(t, a);
    RunStep(t, a, n);
    hide Step;
    hide Enabled;
    hide Lands;
    hide Fate;
    FateStep(t[n], a[n], full, full && (pulse || Skipped(t, a, j, n)));
    SkippedGrows(t, a, j, n);
    hide Skipped;
    hide Skips;
  }

  lemma {:induction false} FateHolds(t: seq<State>, a: seq<Action>, i: nat, j: nat, n: nat)
    requires Run(t, a) && j < n < |t| && FirstUpdate(a, i, j) && Lands(t[i], a[i]) && NothingLands(t, a, i, n)
    ensures var full := t[j].net.dev.ep2.hasData;
            Fate(t[n], full, full && (t[j].pc.CopyPulse? || Skipped(t, a, j, n)))
    decreases n
  {
    hide Run;
    hide Lands;
    hide Fate;
    hide Skipped;
    RunLength(t, a);
    if n == j + 1 {
      FateStarts(t, a, i, j);
    } else {
      FateHolds(t, a, i, j, n - 1);
      FateGoesOn(t, a, j, n - 1, t[j].net.dev.ep2.hasData, t[j].pc.CopyPulse?);
    }
  }

  /** What becomes of the payload landed last, any time after its update phase: it is left in EP2
      for good if and only if it was still there at that phase and either the copy thread was in
      its pulse, or has since found the block not configured. Only another landing ends that. */
  lemma PayloadStuckIff(t: seq<State>, a: seq<Action>, i: nat, j: nat, n: nat)
    requires Run(t, a) && j < n < |t| && FirstUpdate(a, i, j) && Lands(t[i], a[i]) && NothingLands(t, a, i, n)
    ensures Stuck(t[n]) <==> t[j].net.dev.ep2.hasData && (t[j].pc.CopyPulse? || Skipped(t, a, j, n))
  {
    hide Run;
    hide Skipped;
    hide Lands;
    FateHolds(t, a, i, j, n);
  }
}
