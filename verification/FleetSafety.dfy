/** What the invariant of the fleet means for whole runs: isolation by the mutex, how runs end, the
    override window and what a revert leaves. */
module FleetSafety {
  import opened Json
  import opened Devices
  import opened Fleet
  import Network = NetworkChange
  import Emergency = EmergencyChange
  import Drift = DriftRemediation
  import Override = OperationalOverride

  // --- isolation ----------------------------------------------------------------------------

  lemma {:induction false} AfterConcat(s: State, a: seq<Step>, b: seq<Step>)
    ensures After(s, a + b) == After(After(s, a), b)
    decreases |b|
  {
    if b == [] {
      assert a + b == a;
    } else {
      var n := |b| - 1;
      assert (a + b)[..|a + b| - 1] == a + b[..n];
      AfterConcat(s, a, b[..n]);
    }
  }

  lemma AfterOneMore(s: State, steps: seq<Step>, k: nat)
    requires k < |steps|
    ensures After(s, steps[..k + 1]) == Next(After(s, steps[..k]), steps[k])
  {
    assert steps[..k + 1][..k] == steps[..k];
  }

  lemma StepPersists(s: State, step: Step, i: nat)
    requires i < |s.runs|
    ensures var t := Next(s, step);
            && |s.runs| <= |t.runs|
            && t.runs[i].host == s.runs[i].host && t.runs[i].base == s.runs[i].base
            && (!IsOpen(s.runs[i].flow) ==> t.runs[i] == s.runs[i])
  {
    hide FlowStep;
    hide FlowSignal;
    hide StartFlow;
  }

  /** Runs keep their place, host and starting device, and a closed run never changes again. */
  lemma {:induction false} RunsPersist(s: State, steps: seq<Step>, i: nat)
    requires i < |s.runs|
    ensures var t := After(s, steps);
            && |s.runs| <= |t.runs|
            && t.runs[i].host == s.runs[i].host && t.runs[i].base == s.runs[i].base
            && (!IsOpen(s.runs[i].flow) ==> t.runs[i] == s.runs[i])
    decreases |steps|
  {
    hide Next;
    if steps != [] {
      RunsPersist(s, steps[..|steps| - 1], i);
      StepPersists(After(s, steps[..|steps| - 1]), steps[|steps| - 1], i);
    }
  }

  lemma RunsGrow(s: State, steps: seq<Step>, k: nat)
    requires k <= |steps|
    ensures |After(s, steps[..k]).runs| <= |After(s, steps).runs|
  {
    assert steps == steps[..k] + steps[k..];
    AfterConcat(s, steps[..k], steps[k..]);
    hide After;
    var a := After(s, steps[..k]);
    if a.runs != [] { RunsPersist(a, steps[k..], 0); }
  }

  /** While a run is open, only its own steps change its device. */
  lemma StepTouchesOwnDevice(s: State, step: Step, i: nat)
    requires Inv(s) && i < |s.runs| && IsOpen(s.runs[i].flow)
    ensures DeviceOf(Next(s, step), s.runs[i].host) != DeviceOf(s, s.runs[i].host)
            ==> step.Advance? && step.run == i
  {
    hide FlowStep;
    hide FlowInv;
    hide FlowSignal;
    hide StartFlow;
    hide MetricsInv;
  }

  /** From any point at which a run is open to any later point at which it still is, every change to
      its device, configuration or status, is one of its own steps: so the backup it took is still the
      baseline when it rolls back, through any sleep or override window. */
  lemma DeviceChangesAreOwn(s: State, steps: seq<Step>, i: nat, k: nat)
    requires Inv(s) && i < |s.runs| && k < |steps|
    requires i < |After(s, steps).runs| && IsOpen(After(s, steps).runs[i].flow)
    ensures var host := s.runs[i].host;
            DeviceOf(After(s, steps[..k + 1]), host) != DeviceOf(After(s, steps[..k]), host)
            ==> steps[k].Advance? && steps[k].run == i
  {
    hide After;
    hide Next;
    hide Inv;
    hide IsOpen;
    hide DeviceOf;
    var a, b := After(s, steps[..k]), After(s, steps[..k + 1]);
    AfterOneMore(s, steps, k);
    assert steps == steps[..k + 1] + steps[k + 1..];
    AfterConcat(s, steps[..k + 1], steps[k + 1..]);
    InvKept(s, steps[..k]);
    RunsPersist(s, steps[..k], i);
    StepPersists(a, steps[k], i);
    RunsPersist(b, steps[k + 1..], i);
    StepTouchesOwnDevice(a, steps[k], i);
  }

  // --- how runs end -------------------------------------------------------------------------

  predicate Ended(e: Execution) {
    match e.flow
    case NetworkFlow(r) => r.pc.Closed? && Network.Ending(r, r.pc.outcome, e.base, e.last)
    case EmergencyFlow(r) => r.pc.Closed? && Emergency.Ending(r, r.pc.outcome, e.base, e.last)
    case DriftFlow(r) => r.pc.Closed? && Drift.Ending(r, r.pc.outcome, e.base, e.last)
    case OverrideFlow(r) => r.pc.Closed? && Override.Left(r, r.pc.outcome, e.base, e.last)
  }

  /** In every reachable fleet, every closed run has ended in one of the ways its workflow lists,
      where `base` is the device as the run found it and `last` the device as it left it. */
  lemma EveryRunEnds(s: State, steps: seq<Step>, i: nat)
    requires Initial(s)
    requires i < |After(s, steps).runs| && !IsOpen(After(s, steps).runs[i].flow)
    ensures Ended(After(s, steps).runs[i])
  {
    Reachable(s, steps);
    ClosedRunEnded(After(s, steps), i);
  }

  lemma ClosedRunEnded(s: State, i: nat)
    requires Inv(s) && i < |s.runs| && !IsOpen(s.runs[i].flow)
    ensures Ended(s.runs[i])
  {
    hide Merge;
    hide MetricsInv;
    hide Network.Ending;
    hide Emergency.Ending;
    hide Drift.Ending;
    hide Override.Left;
    hide Override.TimeInv;
    assert ExecutionInv(s.runs[i], s.clock);
  }

  /** The override window, for every interleaving of signals, timers and activities. A run that has
      left its wait was terminated, or has waited out its duration and every extension received by
      then, and what is still pending is what arrived after; the wait loop makes at most two passes more
      than there were extensions; and a run that reports OVERRIDE_REVERTED was not terminated when its
      wait ended and reports at least that time as active, with every extension served exactly when none
      arrived after its wait had ended. */
  lemma OverrideWindow(s: State, steps: seq<Step>, i: nat)
    requires Initial(s)
    requires i < |After(s, steps).runs| && After(s, steps).runs[i].flow.OverrideFlow?
    ensures var r := After(s, steps).runs[i].flow.override;
            var w := r.window;
            && w.received == w.consumed + w.pending
            && w.passes <= |w.received| + 2
            && (w.ended ==> w.heard <= w.received && (w.early ==> w.terminated))
            && (w.ended && !w.early ==>
                  w.consumed == w.heard && w.endedAt >= w.appliedAt + r.duration + Override.Total(w.heard))
            && (r.pc == Override.Closed(Override.Reverted) ==>
                  && w.ended && !w.early && r.activeSeconds >= r.duration + Override.Total(w.heard)
                  && w.pending == w.received[|w.heard|..] && (w.pending == [] <==> w.received == w.heard))
  {
    Reachable(s, steps);
    var t := After(s, steps);
    hide After;
    hide MetricsInv;
    hide Override.DeviceInv;
    hide Override.Total;
    hide Override.Positive;
    assert ExecutionInv(t.runs[i], t.clock);
  }

  /** In every reachable fleet, for every override run that returned: when its revert erased the override,
      and when it left the bare intent. */
  lemma RevertedIff(s: State, steps: seq<Step>, i: nat)
    requires Initial(s)
    requires i < |After(s, steps).runs| && After(s, steps).runs[i].flow.OverrideFlow?
    requires After(s, steps).runs[i].flow.override.pc
             in {Override.Closed(Override.Reverted), Override.Closed(Override.Cancelled)}
    ensures var e := After(s, steps).runs[i];
            var r := e.flow.override;
            && e.last.config == Merge(Merge(e.base.config, r.payload), r.intended)
            && (e.last.config == Merge(e.base.config, r.intended)
                <==> AgreeOutside(Merge(e.base.config, r.payload), e.base.config, r.intended))
            && (e.last.config == r.intended <==> !AddsPath(r.intended, Merge(e.base.config, r.payload)))
  {
    EveryRunEnds(s, steps, i);
    var e := After(s, steps).runs[i];
    hide After;
    hide Merge;
    hide AgreeOutside;
    hide AddsPath;
    Override.RevertErasesIff(e.flow.override, e.base, e.last);
  }
}
