/** Quarantine across runs: a run that raises after its first device write leaves its device idle and in
    maintenance, and no drift run writes to that device again until a change or emergency run that
    returned normally has set it active. */
module Quarantine {
  import opened Json
  import opened Devices
  import opened Fleet
  import opened FleetSafety
  import Network = NetworkChange
  import Emergency = EmergencyChange
  import Drift = DriftRemediation
  import Override = OperationalOverride

  predicate OpenOn(s: State, i: nat, host: string) {
    i < |s.runs| && IsOpen(s.runs[i].flow) && s.runs[i].host == host
  }

  predicate Idle(s: State, host: string) {
    forall i | 0 <= i < |s.runs| :: !OpenOn(s, i, host)
  }

  predicate InMaintenance(s: State, host: string) {
    DeviceOf(s, host).status == Maintenance
  }

  // --- entering quarantine ------------------------------------------------------------------

  /** The run raised after its first device write, and the rollback and status activities it needed
      succeeded. An emergency run is included whatever failed: it is in maintenance throughout. */
  predicate RaisedAfterWrite(f: Flow) {
    match f
    case NetworkFlow(r) =>
      r.pc in {Network.Closed(Network.Rejected(Network.MarkDeployFailed)),
               Network.Closed(Network.Rejected(Network.MarkValidationFailed))}
    case DriftFlow(r) =>
      r.pc in {Drift.Closed(Drift.Rejected(Drift.AuditDeployFailed)),
               Drift.Closed(Drift.Rejected(Drift.AuditValidationFailed)),
               Drift.Closed(Drift.Crashed(Drift.AuditRemediated))}
    case EmergencyFlow(r) =>
      r.pc.Closed? && (r.pc.outcome.Rejected? || r.pc.outcome == Emergency.Crashed(Emergency.AuditApplied))
    case OverrideFlow(_) => false
  }

  /** The remediation whose very last audit event failed: it has already marked the device active. */
  predicate LateAudit(f: Flow) {
    f.DriftFlow? && f.drift.pc == Drift.Closed(Drift.Crashed(Drift.AuditRemediated))
  }

  lemma RaisedStatus(e: Execution)
    requires Ended(e) && RaisedAfterWrite(e.flow)
    ensures e.last.status == Maintenance <==> !LateAudit(e.flow)
  {
    hide Merge;
    hide Drift.ActionOf;
  }

  /** The step that closes a run is an activity of that run; it leaves the device idle, and as the run
      records it. */
  lemma ClosingStep(s: State, step: Step, i: nat, host: string)
    requires Inv(s) && OpenOn(s, i, host) && !IsOpen(Next(s, step).runs[i].flow)
    ensures step.Advance? && step.run == i
    ensures Idle(Next(s, step), host) && Next(s, step).runs[i].last == DeviceOf(Next(s, step), host)
  {
    hide FlowStep;
    hide FlowInv;
    hide StartFlow;
    hide MetricsInv;
    if step.Send? && step.run == i {
      var e := s.runs[i];
      assert ExecutionInv(e, s.clock);
      FlowSignalKeepsInv(e.flow, e.base, e.last, s.clock, step.signal);
    }
    hide FlowSignal;
    hide IsOpen;
    var t := Next(s, step);
    forall j | 0 <= j < |t.runs| ensures !OpenOn(t, j, host) {
      if j != i { assert t.runs[j] == s.runs[j]; }
    }
  }

  /** In every reachable fleet: a run whose closing step raised after its first device write leaves its
      device idle, and in maintenance unless, and only unless, it is that remediation. */
  lemma RaiseQuarantinesIff(s: State, before: seq<Step>, step: Step, i: nat)
    requires Initial(s)
    requires var a := After(s, before);
             && i < |a.runs| && IsOpen(a.runs[i].flow) && RaisedAfterWrite(Next(a, step).runs[i].flow)
    ensures var a, b := After(s, before), Next(After(s, before), step);
            var host := a.runs[i].host;
            Idle(b, host) && (InMaintenance(b, host) <==> !LateAudit(b.runs[i].flow))
  {
    var a, b := After(s, before), Next(After(s, before), step);
    var host := a.runs[i].host;
    Reachable(s, before);
    hide After;
    RaisedIsClosed(b.runs[i].flow);
    ClosingStep(a, step, i, host);
    NextKeepsInv(a, step);
    ClosedRunEnded(b, i);
    RaisedStatus(b.runs[i]);
    StepPersists(a, step, i);
    hide Inv;
    hide Next;
    hide RaisedAfterWrite;
    hide LateAudit;
    hide Ended;
  }

  lemma RaisedIsClosed(f: Flow)
    requires RaisedAfterWrite(f)
    ensures !IsOpen(f)
  {
  }

  // --- staying in quarantine ----------------------------------------------------------------

  predicate StartedInMaintenance(s: State, host: string) {
    forall i | 0 <= i < |s.runs| && OpenOn(s, i, host) :: s.runs[i].base.status == Maintenance
  }

  lemma StepKeepsStarted(s: State, step: Step, host: string)
    requires StartedInMaintenance(s, host) && InMaintenance(s, host)
    ensures StartedInMaintenance(Next(s, step), host)
  {
    hide FlowStep;
    hide StartFlow;
    var t := Next(s, step);
    forall i | 0 <= i < |t.runs| && OpenOn(t, i, host) ensures t.runs[i].base.status == Maintenance {
      if i < |s.runs| {
        StepPersists(s, step, i);
        assert OpenOn(s, i, host);
      }
    }
  }

  lemma {:induction false} StartedKept(s: State, steps: seq<Step>, host: string)
    requires StartedInMaintenance(s, host)
    requires forall k | 0 <= k < |steps| :: InMaintenance(After(s, steps[..k]), host)
    ensures StartedInMaintenance(After(s, steps), host)
    decreases |steps|
  {
    hide Next;
    hide StartedInMaintenance;
    hide InMaintenance;
    if steps != [] {
      var n := |steps| - 1;
      forall k | 0 <= k < n ensures InMaintenance(After(s, steps[..n][..k]), host) {
        assert steps[..n][..k] == steps[..k];
      }
      StartedKept(s, steps[..n], host);
      StepKeepsStarted(After(s, steps[..n]), steps[n], host);
    }
  }

  /** While an idle device in maintenance keeps that status, no drift run on it gets as far as writing. */
  lemma MaintenanceHolds(s: State, steps: seq<Step>, host: string, i: nat)
    requires Inv(s) && Idle(s, host)
    requires forall k | 0 <= k < |steps| :: InMaintenance(After(s, steps[..k]), host)
    requires OpenOn(After(s, steps), i, host) && After(s, steps).runs[i].flow.DriftFlow?
    ensures var e := After(s, steps).runs[i];
            !Drift.Writing(e.flow.drift.pc) && DeviceOf(After(s, steps), host) == e.base
  {
    hide Next;
    StartedKept(s, steps, host);
    InvKept(s, steps);
    var t := After(s, steps);
    hide MetricsInv;
    assert ExecutionInv(t.runs[i], t.clock);
    Drift.MaintenanceNeverWrites(t.runs[i].flow.drift, t.runs[i].base, t.runs[i].last);
  }

  // --- leaving quarantine -------------------------------------------------------------------

  /** A change or emergency run that has finished its work and is about to set its device active. */
  predicate MarkingActive(f: Flow) {
    match f
    case NetworkFlow(r) => r.pc == Network.At(Network.MarkActive)
    case EmergencyFlow(r) =>
      r.pc == Emergency.At(Emergency.MarkActiveReverted) || r.pc == Emergency.At(Emergency.MarkActiveApplied)
    case _ => false
  }

  lemma OnlyMarkingLifts(f: Flow, d: Device, m: Override.Metrics, now: int, y: Reply)
    requires d.status == Maintenance && FlowStep(f, d, m, now, y).1.status != Maintenance
    ensures y.ok && (MarkingActive(f) || (f.DriftFlow? && f.drift.pc == Drift.At(Drift.MarkActive)))
  {
    hide Deliver;
    hide Drift.ActionOf;
    hide Override.LoopHead;
    hide Override.Drain;
  }

  /** A drift run gets to its status write only on a device that is not in maintenance. */
  lemma DriftNeverLifts(r: Drift.Run, base: Device, d: Device)
    requires Drift.Inv(r, base, d) && r.pc == Drift.At(Drift.MarkActive)
    ensures d.status != Maintenance
  {
    if base.status == Maintenance { Drift.MaintenanceNeverWrites(r, base, d); }
  }

  /** A device leaves maintenance only by the acknowledged `active` write of an open change or emergency
      run of its own that has finished its work; never by a drift run. */
  lemma LeavingMaintenance(s: State, step: Step, host: string)
    requires Inv(s) && InMaintenance(s, host) && !InMaintenance(Next(s, step), host)
    ensures step.Advance? && step.reply.ok && OpenOn(s, step.run, host) && MarkingActive(s.runs[step.run].flow)
  {
    hide MetricsInv;
    hide FlowInv;
    hide StartFlow;
    hide FlowSignal;
    hide FlowStep;
    hide MarkingActive;
    match step
    case Advance(i, reply) =>
      if i < |s.runs| && IsOpen(s.runs[i].flow) {
        var e := s.runs[i];
        OnlyMarkingLifts(e.flow, DeviceOf(s, e.host), s.metrics, s.clock, reply);
        assert ExecutionInv(e, s.clock);
        DriftFlowNeverLifts(e, s.clock);
      }
    case _ =>
  }

  lemma DriftFlowNeverLifts(e: Execution, now: int)
    requires ExecutionInv(e, now)
    ensures e.flow.DriftFlow? && e.flow.drift.pc == Drift.At(Drift.MarkActive) ==> e.last.status != Maintenance
  {
    hide Drift.Inv;
    if e.flow.DriftFlow? && e.flow.drift.pc == Drift.At(Drift.MarkActive) {
      DriftNeverLifts(e.flow.drift, e.base, e.last);
    }
  }

  predicate Returned(f: Flow) {
    match f
    case NetworkFlow(r) => r.pc == Network.Closed(Network.Success)
    case EmergencyFlow(r) =>
      r.pc == Emergency.Closed(Emergency.Reverted) || r.pc == Emergency.Closed(Emergency.Applied)
    case _ => false
  }

  /** The run has set its device active: it has returned, or has only its last audit event to go. */
  predicate Lifted(f: Flow) {
    Returned(f) || (f.EmergencyFlow? && f.emergency.pc == Emergency.At(Emergency.AuditReverted))
  }

  lemma MarkingLifts(f: Flow, d: Device, m: Override.Metrics, now: int, y: Reply)
    requires MarkingActive(f) && y.ok
    ensures Lifted(FlowStep(f, d, m, now, y).0)
  {
  }

  lemma LiftedStays(f: Flow, d: Device, m: Override.Metrics, now: int, y: Reply, g: Override.Signal)
    requires Lifted(f)
    ensures Lifted(FlowStep(f, d, m, now, y).0) && Lifted(FlowSignal(f, g))
  {
  }

  lemma {:induction false} LiftedKept(s: State, steps: seq<Step>, p: nat)
    requires p < |s.runs| && Lifted(s.runs[p].flow)
    ensures p < |After(s, steps).runs| && Lifted(After(s, steps).runs[p].flow)
    decreases |steps|
  {
    if steps != [] {
      var n := |steps| - 1;
      LiftedKept(s, steps[..n], p);
      var t, step := After(s, steps[..n]), steps[n];
      hide After;
      hide Lifted;
      hide FlowStep;
      hide FlowSignal;
      hide StartFlow;
      var f := t.runs[p].flow;
      match step
      case Advance(_, y) =>
        LiftedStays(f, DeviceOf(t, t.runs[p].host), t.metrics, t.clock, y, Override.TerminateEarly(""));
      case Send(_, g) =>
        LiftedStays(f, DeviceOf(t, t.runs[p].host), t.metrics, t.clock, Reply(true, [], Null, Null, true, true), g);
      case _ =>
    }
  }

  // --- the whole run ------------------------------------------------------------------------

  /** The first step of `steps` that takes the device out of maintenance. */
  lemma {:induction false} FirstLift(s: State, steps: seq<Step>, host: string, until: nat) returns (k: nat)
    requires until <= |steps| && InMaintenance(s, host)
    requires !forall j | 0 <= j < until :: InMaintenance(After(s, steps[..j]), host)
    ensures k + 1 < until && !InMaintenance(After(s, steps[..k + 1]), host)
    ensures forall j | 0 <= j <= k :: InMaintenance(After(s, steps[..j]), host)
    decreases until
  {
    hide InMaintenance;
    hide Next;
    if forall j | 0 <= j < until - 1 :: InMaintenance(After(s, steps[..j]), host) {
      assert steps[..0] == [];
      k := until - 2;
    } else {
      k := FirstLift(s, steps, host, until - 1);
    }
  }

  /** Step `k` of `steps` is the acknowledged `active` write of a change or emergency run on `host`. */
  predicate LiftsAt(s: State, steps: seq<Step>, host: string, k: nat) {
    && k < |steps| && steps[k].Advance? && steps[k].reply.ok
    && var before := After(s, steps[..k]);
       OpenOn(before, steps[k].run, host) && MarkingActive(before.runs[steps[k].run].flow)
  }

  lemma WritingWasLifted(s: State, steps: seq<Step>, host: string, i: nat) returns (k: nat)
    requires Inv(s) && Idle(s, host) && InMaintenance(s, host)
    requires OpenOn(After(s, steps), i, host) && After(s, steps).runs[i].flow.DriftFlow?
    requires Drift.Writing(After(s, steps).runs[i].flow.drift.pc)
    ensures LiftsAt(s, steps, host, k)
  {
    hide Next;
    hide Drift.Writing;
    hide InMaintenance;
    if forall j | 0 <= j < |steps| :: InMaintenance(After(s, steps[..j]), host) {
      MaintenanceHolds(s, steps, host, i);
      assert false;
    }
    k := FirstLift(s, steps, host, |steps|);
    AfterOneMore(s, steps, k);
    InvKept(s, steps[..k]);
    hide After;
    hide Inv;
    LeavingMaintenance(After(s, steps[..k]), steps[k], host);
  }

  /** The run that lifted the quarantine has returned by the time a later run on the device is open. */
  lemma LifterReturned(s: State, steps: seq<Step>, host: string, i: nat, k: nat)
    requires Inv(s) && LiftsAt(s, steps, host, k)
    requires OpenOn(After(s, steps), i, host) && After(s, steps).runs[i].flow.DriftFlow?
    ensures var p := steps[k].run;
            p < |After(s, steps).runs| && Returned(After(s, steps).runs[p].flow)
  {
    hide After;
    hide Next;
    hide Inv;
    hide IsOpen;
    hide Lifted;
    hide Returned;
    hide MarkingActive;
    var a, b := After(s, steps[..k]), After(s, steps[..k + 1]);
    var p := steps[k].run;
    AfterOneMore(s, steps, k);
    LiftingStep(a, steps[k], host);
    assert steps == steps[..k + 1] + steps[k + 1..];
    AfterConcat(s, steps[..k + 1], steps[k + 1..]);
    LiftedKept(b, steps[k + 1..], p);
    RunsPersist(b, steps[k + 1..], p);
    InvKept(s, steps);
    LiftedClosed(After(s, steps), host, i, p);
  }

  lemma LiftingStep(s: State, step: Step, host: string)
    requires step.Advance? && step.reply.ok && OpenOn(s, step.run, host) && MarkingActive(s.runs[step.run].flow)
    ensures var t := Next(s, step);
            step.run < |t.runs| && Lifted(t.runs[step.run].flow) && t.runs[step.run].host == host
  {
    hide FlowStep;
    hide Lifted;
    var e := s.runs[step.run];
    MarkingLifts(e.flow, DeviceOf(s, e.host), s.metrics, s.clock, step.reply);
  }

  lemma LiftedClosed(t: State, host: string, i: nat, p: nat)
    requires Inv(t) && OpenOn(t, i, host) && t.runs[i].flow.DriftFlow?
    requires p < |t.runs| && t.runs[p].host == host && Lifted(t.runs[p].flow)
    ensures Returned(t.runs[p].flow)
  {
    hide MetricsInv;
    hide FlowInv;
    assert p != i;
    assert !IsOpen(t.runs[p].flow);
  }

  /** Quarantine. In every reachable fleet, let a step close a run that raised after its first device
      write, other than the remediation that raises after its `active` write. The device is then idle
      and in maintenance. Whatever happens afterwards, if ever a drift run on it gets as far as writing,
      then some earlier step was the acknowledged `active` write of a change or emergency run on it, and
      that run has returned normally. */
  lemma QuarantineHolds(s: State, before: seq<Step>, step: Step, i: nat, later: seq<Step>, j: nat)
    returns (k: nat)
    requires Initial(s)
    requires var a, b := After(s, before), Next(After(s, before), step);
             && i < |a.runs| && IsOpen(a.runs[i].flow)
             && RaisedAfterWrite(b.runs[i].flow) && !LateAudit(b.runs[i].flow)
    requires var host, t := After(s, before).runs[i].host, After(Next(After(s, before), step), later);
             OpenOn(t, j, host) && t.runs[j].flow.DriftFlow? && Drift.Writing(t.runs[j].flow.drift.pc)
    ensures var host, b := After(s, before).runs[i].host, Next(After(s, before), step);
            && Idle(b, host) && InMaintenance(b, host)
            && LiftsAt(b, later, host, k)
            && later[k].run < |After(b, later).runs| && Returned(After(b, later).runs[later[k].run].flow)
  {
    var a, b := After(s, before), Next(After(s, before), step);
    var host := a.runs[i].host;
    RaiseQuarantinesIff(s, before, step, i);
    Reachable(s, before);
    NextKeepsInv(a, step);
    hide After;
    hide Next;
    hide RaisedAfterWrite;
    k := WritingWasLifted(b, later, host, j);
    LifterReturned(b, later, host, j, k);
  }
}
