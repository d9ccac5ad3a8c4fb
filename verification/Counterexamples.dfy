/** Runs that fall outside what one would like to hold of every run. Each is a concrete run of the
    fleet; the exact conditions are `FleetSafety.OverrideWindow`, `FleetSafety.RevertedIff`,
    `FleetEvents.GaugeDrainsIff` and `Quarantine.RaiseQuarantinesIff`. */
module Counterexamples {
  import opened Json
  import opened Devices
  import opened Fleet
  import opened FleetSafety
  import opened Quarantine
  import opened DriftMeasures
  import Drift = DriftRemediation
  import Override = OperationalOverride

  const LEAF := Device(Obj(map[]), Active)
  const FINE := Reply(true, [], Obj(map["interface" := Str("ethernet-1/1")]), Null, true, true)
  const FAILED := FINE.(ok := false)
  const ALL_LOST := FINE.(lost := [false, false, false])

  function Empty(): State {
    State([], map["leaf1" := LEAF], 0, Override.Metrics(0, 0, 0, 0))
  }

  /** A fleet of one device and one run. */
  function Solo(f: Flow, d: Device, clock: int, m: Override.Metrics): State {
    State([Execution("device-ops-leaf1", "leaf1", LEAF, d, f)], map["leaf1" := d], clock, m)
  }

  lemma Extend(s: State, steps: seq<Step>, step: Step)
    ensures After(s, steps + [step]) == Next(After(s, steps), step)
  {
    assert (steps + [step])[..|steps|] == steps;
  }

  /** A write of which every attempt was lost, and one that was acknowledged at once. */
  lemma Writes(d: Device, w: Write)
    ensures Push(d, w, ALL_LOST.lost) == (d, false)
    ensures Push(d, w, FINE.lost) == (d.(config := Set(d.config, w)), true)
  {
    hide Set;
    PushCollapses(d, w, ALL_LOST.lost);
    PushCollapses(d, w, FINE.lost);
  }

  lemma NotSpace(c: char)
    requires 'a' <= c <= 'z'
    ensures !IsSpace(c)
  {
    assert 97 <= c as int <= 122;
  }

  lemma Started(q: Request) returns (steps: seq<Step>)
    ensures After(Empty(), steps) == Solo(StartFlow(q), LEAF, 0, Empty().metrics)
  {
    hide StartFlow;
    steps := [Start("leaf1", q)];
    assert steps == [] + [Start("leaf1", q)];
    Extend(Empty(), [], Start("leaf1", q));
    assert "leaf1"[0] == 'l';
    NotSpace('l');
    assert "device-ops-" + "leaf1" == "device-ops-leaf1";
  }

  lemma OneAnswer(steps: seq<Step>, f: Flow, d: Device, clock: int, m: Override.Metrics, y: Reply)
    returns (longer: seq<Step>)
    requires After(Empty(), steps) == Solo(f, d, clock, m) && IsOpen(f)
    ensures var (f', d', m') := FlowStep(f, d, m, clock, y);
            After(Empty(), longer) == Solo(f', d', clock, m')
  {
    hide FlowStep;
    hide IsOpen;
    longer := steps + [Advance(0, y)];
    Extend(Empty(), steps, Advance(0, y));
  }

  /** One answer to an override run. */
  lemma Override1(steps: seq<Step>, r: Override.Run, d: Device, clock: int, m: Override.Metrics, y: Reply)
    returns (longer: seq<Step>, r': Override.Run, d': Device, m': Override.Metrics)
    requires After(Empty(), steps) == Solo(OverrideFlow(r), d, clock, m) && r.pc.At?
    ensures (r', d', m') == Override.Step(r, d, m, clock, y)
    ensures After(Empty(), longer) == Solo(OverrideFlow(r'), d', clock, m')
  {
    hide Override.Step;
    longer := OneAnswer(steps, OverrideFlow(r), d, clock, m, y);
    var (a, b, c) := Override.Step(r, d, m, clock, y);
    r', d', m' := a, b, c;
  }

  /** An override run up to its wait, when everything goes well. */
  lemma Held(payload: Json) returns (steps: seq<Step>, r: Override.Run, d: Device, m: Override.Metrics)
    ensures After(Empty(), steps) == Solo(OverrideFlow(r), d, 0, m)
    ensures r.pc == Override.At(Override.Waiting) && m.active == 1
    ensures r.window.appliedAt == 0 && r.window.endTime == 60 && r.payload == payload
    ensures r.window.pending == [] && !r.window.terminated && r.applied
  {
    hide Merge;
    hide After;
    steps := Started(OverrideRequest(payload, 60));
    r, d, m := Override.Start(payload, 60), LEAF, Empty().metrics;
    steps, r, d, m := Override1(steps, r, d, 0, m, FINE);
    steps, r, d, m := Override1(steps, r, d, 0, m, FINE);
    steps, r, d, m := Override1(steps, r, d, 0, m, FINE);
    assert r.pc == Override.At(Override.Apply);
    steps, r, d, m := Override1(steps, r, d, 0, m, FINE);
    steps, r, d, m := Override1(steps, r, d, 0, m, FINE);
    steps, r, d, m := Override1(steps, r, d, 0, m, FINE);
  }

  /** The same run when its window is over. */
  lemma Expired(payload: Json) returns (steps: seq<Step>, r: Override.Run, d: Device, m: Override.Metrics)
    ensures After(Empty(), steps) == Solo(OverrideFlow(r), d, 60, m)
    ensures r.pc == Override.At(Override.CheckSafety) && m.active == 1
    ensures r.window.appliedAt == 0 && r.window.pending == [] && !r.window.early && r.payload == payload
  {
    hide After;
    hide Push;
    hide Override.OpeningStep;
    hide Override.SafetyStep;
    hide Override.RevertStep;
    steps, r, d, m := Held(payload);
    Extend(Empty(), steps, Tick(60));
    steps := steps + [Tick(60)];
    steps, r, d, m := Override1(steps, r, d, 60, m, FINE);
  }

  /** The same run at its revert. */
  lemma Reverting(payload: Json) returns (steps: seq<Step>, r: Override.Run, d: Device, m: Override.Metrics)
    ensures After(Empty(), steps) == Solo(OverrideFlow(r), d, 60, m)
    ensures r.pc == Override.At(Override.Revert) && m.active == 1 && !r.window.early
    ensures r.payload == payload && r.intended == FINE.doc
  {
    hide After;
    hide Push;
    hide Override.OpeningStep;
    hide Override.WaitStep;
    hide Override.RevertStep;
    steps, r, d, m := Expired(payload);
    steps, r, d, m := Override1(steps, r, d, 60, m, FINE);
    steps, r, d, m := Override1(steps, r, d, 60, m, FINE);
    steps, r, d, m := Override1(steps, r, d, 60, m, FINE);
  }

  /** No exception escapes this override run, and it ends as the code means failed reverts to end;
      yet the gauge still counts it, because the activity that records the failure was lost. */
  lemma LostRecordLeaks() returns (steps: seq<Step>)
    ensures var t := After(Empty(), steps);
            && |t.runs| == 1 && t.runs[0].flow.OverrideFlow?
            && t.runs[0].flow.override.pc == Override.Closed(Override.Rejected(Override.AuditRevertFailed))
            && t.metrics.active == 1
  {
    hide Merge;
    hide After;
    hide Override.OpeningStep;
    hide Override.WaitStep;
    hide Override.SafetyStep;
    var r, d, m;
    steps, r, d, m := Reverting(Obj(map[]));
    Writes(d, Update(r.intended));
    hide Push;
    steps, r, d, m := Override1(steps, r, d, 60, m, ALL_LOST);
    assert r.pc == Override.At(Override.RecordFailure);
    steps, r, d, m := Override1(steps, r, d, 60, m, FAILED);
    steps, r, d, m := Override1(steps, r, d, 60, m, FINE);
  }

  lemma Signal1(steps: seq<Step>, r: Override.Run, d: Device, clock: int, m: Override.Metrics, g: Override.Signal)
    returns (longer: seq<Step>, r': Override.Run)
    requires After(Empty(), steps) == Solo(OverrideFlow(r), d, clock, m) && r.pc.At?
    ensures r' == Override.Handle(r, g) && After(Empty(), longer) == Solo(OverrideFlow(r'), d, clock, m)
  {
    longer := steps + [Send(0, g)];
    Extend(Empty(), steps, Send(0, g));
    r' := Override.Handle(r, g);
  }

  /** A revert that succeeds at once, and what follows it. */
  lemma Finish(steps: seq<Step>, r: Override.Run, d: Device, m: Override.Metrics)
    returns (longer: seq<Step>, r': Override.Run, d': Device, m': Override.Metrics)
    requires After(Empty(), steps) == Solo(OverrideFlow(r), d, 60, m)
    requires r.pc == Override.At(Override.Revert) && !r.window.early
    ensures After(Empty(), longer) == Solo(OverrideFlow(r'), d', 60, m')
    ensures r' == r.(pc := Override.Closed(Override.Reverted), reverted := true)
  {
    hide After;
    hide Set;
    hide Override.OpeningStep;
    hide Override.WaitStep;
    hide Override.SafetyStep;
    Writes(d, Update(r.intended));
    hide Push;
    longer, r', d', m' := Override1(steps, r, d, 60, m, FINE);
    assert r' == r.(pc := Override.At(Override.MarkFinal), reverted := true);
    longer, r', d', m' := Override1(longer, r', d', 60, m', FINE);
    assert r' == r.(pc := Override.At(Override.AuditFinal), reverted := true);
    longer, r', d', m' := Override1(longer, r', d', 60, m', FINE);
  }

  /** The same window, with an extension that arrives while the safety check is awaited. */
  lemma ExtendedLate() returns (steps: seq<Step>, r: Override.Run, d: Device, m: Override.Metrics)
    ensures After(Empty(), steps) == Solo(OverrideFlow(r), d, 60, m)
    ensures r.pc == Override.At(Override.Revert) && r.activeSeconds == 60
    ensures r.window.pending == [Override.Extension(3600, "")] && !r.window.early
  {
    hide After;
    hide Push;
    hide Override.OpeningStep;
    hide Override.WaitStep;
    hide Override.RevertStep;
    steps, r, d, m := Expired(Obj(map[]));
    steps, r := Signal1(steps, r, d, 60, m, Override.ExtendWindow(3600, ""));
    steps, r, d, m := Override1(steps, r, d, 60, m, FINE);
    steps, r, d, m := Override1(steps, r, d, 60, m, FINE);
    steps, r, d, m := Override1(steps, r, d, 60, m, FINE);
  }

  /** An extension that arrives after the wait has ended is queued and never served: this run returns
      OVERRIDE_REVERTED after one minute with an hour pending. */
  lemma LateExtensionIsLost() returns (steps: seq<Step>)
    ensures var t := After(Empty(), steps);
            && |t.runs| == 1 && t.runs[0].flow.OverrideFlow?
            && t.runs[0].flow.override.pc == Override.Closed(Override.Reverted)
            && t.runs[0].flow.override.activeSeconds == 60
            && t.runs[0].flow.override.window.pending == [Override.Extension(3600, "")]
  {
    hide After;
    hide Merge;
    var r, d, m;
    steps, r, d, m := ExtendedLate();
    steps, r, d, m := Finish(steps, r, d, m);
  }

  /** An override of something that the intent does not speak about. */
  const BANNER := Obj(map["banner" := Str("incident")])

  lemma RevertedBanner() returns (steps: seq<Step>, r: Override.Run, d: Device, m: Override.Metrics)
    ensures After(Empty(), steps) == Solo(OverrideFlow(r), d, 60, m)
    ensures r.pc == Override.Closed(Override.Reverted) && r.payload == BANNER && r.intended == FINE.doc
  {
    hide After;
    hide Merge;
    steps, r, d, m := Reverting(BANNER);
    steps, r, d, m := Finish(steps, r, d, m);
  }

  /** Its run returns OVERRIDE_REVERTED, no activity having failed, and the override is still on the
      device. */
  lemma RevertLeavesBanner() returns (steps: seq<Step>)
    ensures var t := After(Empty(), steps);
            && |t.runs| == 1 && t.runs[0].flow.OverrideFlow?
            && t.runs[0].flow.override.pc == Override.Closed(Override.Reverted)
            && Lookup(DeviceOf(t, "leaf1").config, ["banner"]) == Some(Str("incident"))
            && DeviceOf(t, "leaf1").config != t.runs[0].flow.override.intended
  {
    var r, d, m;
    steps, r, d, m := RevertedBanner();
    RevertedIff(Empty(), steps, 0);
    BannerStays();
    hide After;
    hide Merge;
    hide Lookup;
    hide AddsPath;
    hide AgreeOutside;
  }

  lemma BannerStays()
    ensures var left := Merge(Merge(LEAF.config, BANNER), FINE.doc);
            Lookup(left, ["banner"]) == Some(Str("incident")) && left != FINE.doc
  {
    var on := Merge(LEAF.config, BANNER);
    OneKey(on, "banner");
    OneKey(FINE.doc, "banner");
    OneKey(Merge(on, FINE.doc), "banner");
    assert on.fields["banner"] == Str("incident") && "banner" !in FINE.doc.fields;
  }

  lemma Drift1(steps: seq<Step>, r: Drift.Run, d: Device, y: Reply)
    returns (longer: seq<Step>, r': Drift.Run, d': Device)
    requires After(Empty(), steps) == Solo(DriftFlow(r), d, 0, Empty().metrics) && r.pc.At?
    ensures (r', d') == Drift.Step(r, d, y)
    ensures After(Empty(), longer) == Solo(DriftFlow(r'), d', 0, Empty().metrics)
  {
    hide Drift.Step;
    longer := OneAnswer(steps, DriftFlow(r), d, 0, Empty().metrics, y);
    var (a, b) := Drift.Step(r, d, y);
    r', d' := a, b;
  }

  /** A remediation on a device whose one section is missing, up to its first write. */
  lemma Detected() returns (steps: seq<Step>, r: Drift.Run)
    ensures After(Empty(), steps) == Solo(DriftFlow(r), LEAF, 0, Empty().metrics)
    ensures r.pc == Drift.At(Drift.Deploy) && r.intended == FINE.doc
  {
    hide After;
    hide SeverityOf;
    steps := Started(DriftRequest);
    var d;
    r := Drift.Start();
    steps, r, d := Drift1(steps, r, LEAF, FINE);
    steps, r, d := Drift1(steps, r, d, FINE);
    MissingSectionIsCritical();
    steps, r, d := Drift1(steps, r, d, FINE);
    assert r.pc == Drift.At(Drift.AuditDetected);
    steps, r, d := Drift1(steps, r, d, FINE);
    steps, r, d := Drift1(steps, r, d, FINE);
    steps, r, d := Drift1(steps, r, d, FINE);
  }

  lemma MissingSectionIsCritical()
    ensures SeverityOf(FINE.doc.fields, map[]) == Critical
  {
    var intended, running: Doc := FINE.doc.fields, map[];
    assert "interface" in Sections(intended, running) && CriticalSection(intended, running, "interface");
  }

  /** The same remediation when it is about to set the device active. */
  lemma Remediated() returns (steps: seq<Step>, r: Drift.Run, d: Device)
    ensures After(Empty(), steps) == Solo(DriftFlow(r), d, 0, Empty().metrics)
    ensures r.pc == Drift.At(Drift.MarkActive)
  {
    hide After;
    hide Set;
    steps, r := Detected();
    Writes(LEAF, Update(r.intended));
    hide Push;
    steps, r, d := Drift1(steps, r, LEAF, FINE);
    steps, r, d := Drift1(steps, r, d, FINE);
    steps, r, d := Drift1(steps, r, d, FINE);
  }

  /** This remediation raises after its device write although every activity before its last audit
      event succeeds, and it leaves the device active. */
  lemma LateAuditLiftsQuarantine() returns (steps: seq<Step>)
    ensures var t := After(Empty(), steps);
            && |t.runs| == 1 && !IsOpen(t.runs[0].flow) && RaisedAfterWrite(t.runs[0].flow)
            && DeviceOf(t, "leaf1").status == Active
  {
    hide After;
    hide Merge;
    var r, d;
    steps, r, d := Remediated();
    steps, r, d := Drift1(steps, r, d, FINE);
    steps, r, d := Drift1(steps, r, d, FAILED);
  }
}
