/** What the answers and signals that a run of the fleet has had say of it: the request that started it,
    its point, its outcome and its times. */
module FleetAnswers {
  import opened Json
  import opened Devices
  import opened Fleet
  import opened FleetSafety
  import HygieneChecker
  import Network = NetworkChange
  import Emergency = EmergencyChange
  import Drift = DriftRemediation
  import Override = OperationalOverride
  import OverrideAnswers

  /** The run awaits an activity, rather than a timer. */
  predicate Listens(f: Flow) {
    match f
    case NetworkFlow(r) => r.pc.At?
    case EmergencyFlow(r) => r.pc.At? && !Emergency.IsTimer(r.pc)
    case DriftFlow(r) => r.pc.At?
    case OverrideFlow(r) => r.pc.At? && !OverrideAnswers.IsTimer(r.pc)
  }

  /** The answers to the activities of run `i`, with their times. */
  function Heard(s: State, steps: seq<Step>, i: nat): seq<Answer> {
    if steps == [] then []
    else
      var n := |steps| - 1;
      var t := After(s, steps[..n]);
      Heard(s, steps[..n], i)
      + match steps[n]
        case Advance(j, y) => if j == i < |t.runs| && Listens(t.runs[i].flow) then [Answer(y, t.clock)] else []
        case _ => []
  }

  /** The signals that reached run `i` while it was open. */
  function Sent(s: State, steps: seq<Step>, i: nat): seq<Override.Signal> {
    if steps == [] then []
    else
      var n := |steps| - 1;
      var t := After(s, steps[..n]);
      Sent(s, steps[..n], i)
      + match steps[n]
        case Send(j, g) => if j == i < |t.runs| && IsOpen(t.runs[i].flow) then [g] else []
        case _ => []
  }

  /** The request that started run `i`. */
  function RequestOf(s: State, steps: seq<Step>, i: nat): Option<Request> {
    if steps == [] then None
    else
      var n := |steps| - 1;
      var before := RequestOf(s, steps[..n], i);
      if before.Some? then before
      else
        match steps[n]
        case Start(_, q) =>
          if |After(s, steps[..n]).runs| == i < |After(s, steps).runs| then Some(q) else None
        case _ => None
  }

  /** Answers `ys` and signals `gs` account for a flow that was started by `q` on `base`. */
  ghost predicate FlowTold(
      q: Request, base: Device, f: Flow, ys: seq<Answer>, gs: seq<Override.Signal>, now: int) {
    match q
    case ChangeRequest(rules) => f.NetworkFlow? && Network.Told(f.network, rules, ys)
    case EmergencyRequest(config, ttl) => f.EmergencyFlow? && Emergency.Told(f.emergency, config, ttl, ys, now)
    case DriftRequest => f.DriftFlow? && Drift.Told(f.drift, base, ys)
    case OverrideRequest(config, duration) =>
      f.OverrideFlow? && OverrideAnswers.Told(f.override, config, duration, ys, gs, now)
  }

  lemma StartTold(q: Request, base: Device, now: int)
    ensures FlowTold(q, base, StartFlow(q), [], [], now)
  {
    hide Network.Told;
    hide Emergency.Told;
    hide Drift.Told;
    hide OverrideAnswers.Told;
    match q
    case ChangeRequest(rules) => Network.StartTold(rules);
    case EmergencyRequest(config, ttl) => Emergency.StartTold(config, ttl, now);
    case DriftRequest => Drift.StartTold(base);
    case OverrideRequest(config, duration) => OverrideAnswers.StartTold(config, duration, now);
  }

  function OneMore(f: Flow, ys: seq<Answer>, y: Reply, now: int): seq<Answer> {
    if Listens(f) then ys + [Answer(y, now)] else ys
  }

  lemma FlowStepTold(
      q: Request, base: Device, f: Flow, d: Device, m: Override.Metrics, now: int, y: Reply,
      ys: seq<Answer>, gs: seq<Override.Signal>)
    requires FlowTold(q, base, f, ys, gs, now) && FlowInv(f, base, d, now) && IsOpen(f)
    ensures FlowTold(q, base, FlowStep(f, d, m, now, y).0, OneMore(f, ys, y, now), gs, now)
  {
    hide Network.Step;
    hide Network.Told;
    hide Network.Inv;
    hide Emergency.Step;
    hide Emergency.Told;
    hide Emergency.Inv;
    hide Drift.Step;
    hide Drift.Told;
    hide Drift.Inv;
    hide Override.Step;
    hide Override.TimeInv;
    hide Override.DeviceInv;
    hide OverrideAnswers.Told;
    match q
    case ChangeRequest(rules) => Network.StepTells(f.network, rules, d, y, now, ys);
    case EmergencyRequest(config, ttl) =>
      if Emergency.IsTimer(f.emergency.pc) {
        Emergency.SleepTells(f.emergency, config, ttl, d, y, now, ys);
      } else {
        Emergency.StepTells(f.emergency, config, ttl, d, y, now, ys);
      }
    case DriftRequest => Drift.StepTells(f.drift, base, d, y, now, ys);
    case OverrideRequest(config, duration) =>
      if OverrideAnswers.IsTimer(f.override.pc) {
        OverrideAnswers.TimerTells(f.override, config, duration, d, m, now, y, ys, gs);
      } else {
        OverrideAnswers.StepTells(f.override, config, duration, d, m, now, y, ys, gs);
      }
  }

  lemma FlowSignalTold(
      q: Request, base: Device, f: Flow, ys: seq<Answer>, gs: seq<Override.Signal>, g: Override.Signal, now: int)
    requires FlowTold(q, base, f, ys, gs, now)
    ensures FlowTold(q, base, FlowSignal(f, g), ys, gs + [g], now)
  {
    hide Network.Told;
    hide Emergency.Told;
    hide Drift.Told;
    hide OverrideAnswers.Told;
    hide Override.Handle;
    match q
    case OverrideRequest(config, duration) =>
      OverrideAnswers.SignalTells(f.override, config, duration, g, ys, gs, now);
    case _ =>
  }

  lemma FlowTimeTold(
      q: Request, base: Device, f: Flow, ys: seq<Answer>, gs: seq<Override.Signal>, now: int, later: int)
    requires FlowTold(q, base, f, ys, gs, now) && now <= later
    ensures FlowTold(q, base, f, ys, gs, later)
  {
    hide Network.Told;
    hide Emergency.Told;
    hide Drift.Told;
    hide OverrideAnswers.Told;
    match q
    case EmergencyRequest(config, ttl) => Emergency.TimeTells(f.emergency, config, ttl, ys, now, later);
    case OverrideRequest(config, duration) =>
      OverrideAnswers.TimeTells(f.override, config, duration, ys, gs, now, later);
    case _ =>
  }

  // --- every run of every fleet -------------------------------------------------------------

  /** Nothing is heard, sent or requested before a run is there. */
  lemma {:induction false} NothingBefore(s: State, steps: seq<Step>, i: nat)
    requires i >= |After(s, steps).runs|
    ensures Heard(s, steps, i) == [] && Sent(s, steps, i) == [] && RequestOf(s, steps, i) == None
    decreases |steps|
  {
    if steps != [] {
      var n := |steps| - 1;
      RunsGrow(s, steps, n);
      NothingBefore(s, steps[..n], i);
      hide After;
    }
  }

  /** Run `i` of `t` is told, as far as `q`, `ys` and `gs` go. */
  ghost predicate RunTold(t: State, i: nat, q: Option<Request>, ys: seq<Answer>, gs: seq<Override.Signal>) {
    i < |t.runs| && q.Some? && FlowTold(q.value, t.runs[i].base, t.runs[i].flow, ys, gs, t.clock)
  }

  lemma NextTold(
      t: State, step: Step, i: nat, q: Option<Request>, ys: seq<Answer>, gs: seq<Override.Signal>)
    requires Inv(t) && RunTold(t, i, q, ys, gs)
    ensures RunTold(Next(t, step), i, q,
                    if step.Advance? && step.run == i then OneMore(t.runs[i].flow, ys, step.reply, t.clock) else ys,
                    if step.Send? && step.run == i && IsOpen(t.runs[i].flow) then gs + [step.signal] else gs)
  {
    hide MetricsInv;
    hide FlowInv;
    hide FlowTold;
    hide FlowStep;
    hide FlowSignal;
    hide StartFlow;
    var e := t.runs[i];
    match step
    case Advance(j, y) =>
      if j == i {
        if IsOpen(e.flow) {
          FlowStepTold(q.value, e.base, e.flow, e.last, t.metrics, t.clock, y, ys, gs);
        } else {
          ListensIsOpen(e.flow);
        }
      }
    case Send(j, g) =>
      if j == i { FlowSignalTold(q.value, e.base, e.flow, ys, gs, g, t.clock); }
    case Tick(seconds) => FlowTimeTold(q.value, e.base, e.flow, ys, gs, t.clock, t.clock + seconds);
    case _ =>
    hide IsOpen;
    hide Listens;
  }

  lemma ListensIsOpen(f: Flow)
    ensures Listens(f) ==> IsOpen(f)
  {
  }

  lemma NewRunTold(t: State, step: Step, i: nat)
    requires |t.runs| <= i < |Next(t, step).runs|
    ensures step.Start? && i == |t.runs| && RunTold(Next(t, step), i, Some(step.request), [], [])
  {
    hide StartFlow;
    hide FlowStep;
    hide FlowSignal;
    match step
    case Start(host, request) => StartTold(request, DeviceOf(t, host), t.clock);
    case _ =>
    hide FlowTold;
  }

  /** The history of a run that is there, with one more step. */
  lemma OneMoreHeard(s: State, steps: seq<Step>, i: nat)
    requires steps != []
    ensures var n := |steps| - 1;
            var t, step, ys, gs := After(s, steps[..n]), steps[n], Heard(s, steps[..n], i), Sent(s, steps[..n], i);
            && (i < |t.runs| ==>
                  && Heard(s, steps, i) == (if step.Advance? && step.run == i
                                            then OneMore(t.runs[i].flow, ys, step.reply, t.clock) else ys)
                  && Sent(s, steps, i) == (if step.Send? && step.run == i && IsOpen(t.runs[i].flow)
                                           then gs + [step.signal] else gs))
            && (i >= |t.runs| ==> Heard(s, steps, i) == ys && Sent(s, steps, i) == gs)
  {
    hide After;
    hide Listens;
    hide IsOpen;
  }

  /** In every reachable fleet the answers and signals that a run has had account for it. */
  lemma {:induction false} EveryRunIsTold(s: State, steps: seq<Step>, i: nat)
    requires Initial(s) && i < |After(s, steps).runs|
    ensures RequestOf(s, steps, i).Some?
    ensures RunTold(After(s, steps), i, RequestOf(s, steps, i), Heard(s, steps, i), Sent(s, steps, i))
    decreases |steps|
  {
    hide RunTold;
    hide Inv;
    var n := |steps| - 1;
    var t := After(s, steps[..n]);
    Reachable(s, steps[..n]);
    OneMoreHeard(s, steps, i);
    if i < |t.runs| {
      EveryRunIsTold(s, steps[..n], i);
      NextTold(t, steps[n], i, RequestOf(s, steps[..n], i), Heard(s, steps[..n], i), Sent(s, steps[..n], i));
    } else {
      NothingBefore(s, steps[..n], i);
      NewRunTold(t, steps[n], i);
    }
    hide Next;
    hide Listens;
    hide IsOpen;
    hide Heard;
    hide Sent;
  }

  // --- what they decide ---------------------------------------------------------------------

  /** The answers decide where a change run is, under the rules of its request; and it has written to its
      device only if its fetch returned, rendered, and passed the gate. */
  lemma ChangePlaceIff(s: State, steps: seq<Step>, i: nat, p: Network.Pc)
    requires Initial(s) && i < |After(s, steps).runs| && After(s, steps).runs[i].flow.NetworkFlow?
    ensures var e, q, ys := After(s, steps).runs[i], RequestOf(s, steps, i), Heard(s, steps, i);
            && q.Some? && q.value.ChangeRequest?
            && (e.flow.network.pc == p <==> Network.ToldPc(p, q.value.rules, ys))
            && (e.last.config != e.base.config ==> Network.Cleared(ys, q.value.rules))
  {
    EveryRunIsTold(s, steps, i);
    Reachable(s, steps);
    var t, q, ys := After(s, steps), RequestOf(s, steps, i), Heard(s, steps, i);
    hide After;
    hide MetricsInv;
    assert ExecutionInv(t.runs[i], t.clock);
    hide RequestOf;
    hide Heard;
    hide Network.Told;
    hide Network.Inv;
    hide Network.ToldPc;
    var e := t.runs[i];
    Network.PlaceIff(e.flow.network, q.value.rules, ys, p);
    Network.WritesOnlyIfCleared(e.flow.network, q.value.rules, e.base, e.last, ys);
  }

  /** The answers decide where an emergency run is, but for the firing of its timer. */
  lemma EmergencyPlaceIff(s: State, steps: seq<Step>, i: nat, p: Emergency.Pc)
    requires Initial(s) && i < |After(s, steps).runs| && After(s, steps).runs[i].flow.EmergencyFlow?
    ensures var pc, q, ys := After(s, steps).runs[i].flow.emergency.pc, RequestOf(s, steps, i), Heard(s, steps, i);
            var timer := {Emergency.At(Emergency.Sleep), Emergency.At(Emergency.Revert)};
            && q.Some? && q.value.EmergencyRequest?
            && (p !in timer ==> (pc == p <==> Emergency.ToldPc(p, q.value.ttlSeconds, ys)))
            && (pc in timer <==> Emergency.ToldPc(Emergency.At(Emergency.Sleep), q.value.ttlSeconds, ys))
  {
    EveryRunIsTold(s, steps, i);
    var t, q, ys := After(s, steps), RequestOf(s, steps, i), Heard(s, steps, i);
    hide After;
    hide RequestOf;
    hide Heard;
    hide Emergency.Told;
    hide Emergency.ToldPc;
    Emergency.PlaceIff(t.runs[i].flow.emergency, q.value.config, q.value.ttlSeconds, ys, t.clock, p);
  }

  /** The revert of an emergency change is answered no earlier than its time to live after the audit that
      followed the validation; and a run that returned leaves its device active exactly when its status
      write, the answer after the revert or after that audit, was good. */
  lemma EmergencyTimes(s: State, steps: seq<Step>, i: nat)
    requires Initial(s) && i < |After(s, steps).runs| && After(s, steps).runs[i].flow.EmergencyFlow?
    ensures var e, q, ys := After(s, steps).runs[i], RequestOf(s, steps, i), Heard(s, steps, i);
            && q.Some? && q.value.EmergencyRequest?
            && (Emergency.Audited(ys) && q.value.ttlSeconds > 0 && |ys| > 7 ==>
                  ys[5].at + q.value.ttlSeconds <= ys[6].at + q.value.ttlSeconds <= ys[7].at)
            && (e.flow.emergency.pc == Emergency.Closed(Emergency.Reverted) ==>
                  e.last == Device(e.base.config, if Ok(ys, 8) then Active else Maintenance))
            && (e.flow.emergency.pc == Emergency.Closed(Emergency.Applied) ==>
                  e.last == Device(Merge(e.base.config, q.value.config), if Ok(ys, 7) then Active else Maintenance))
  {
    EveryRunIsTold(s, steps, i);
    Reachable(s, steps);
    var t, q, ys := After(s, steps), RequestOf(s, steps, i), Heard(s, steps, i);
    hide After;
    hide MetricsInv;
    assert ExecutionInv(t.runs[i], t.clock);
    hide RequestOf;
    hide Heard;
    hide Merge;
  }

  /** The answers, and the device that it found, decide where a drift run is. A remediation of which a
      validator failed never marks its device active: its device is in maintenance as soon as the status
      write after that validator is answered, if it is good. */
  lemma DriftPlaceIff(s: State, steps: seq<Step>, i: nat, p: Drift.Pc, last: nat)
    requires Initial(s) && i < |After(s, steps).runs| && After(s, steps).runs[i].flow.DriftFlow?
    ensures var e, ys := After(s, steps).runs[i], Heard(s, steps, i);
            var comparable, action := Drift.ComparesTo(e.base, ys), Drift.ActionOn(e.base, ys);
            && (e.flow.drift.pc == p <==> Drift.ToldPc(p, comparable, action, ys))
            && (Drift.Invalid(ys, comparable, action, last) ==>
                  e.last.status == if Ok(ys, last + 1) then Maintenance else e.base.status)
  {
    EveryRunIsTold(s, steps, i);
    Reachable(s, steps);
    var t, ys := After(s, steps), Heard(s, steps, i);
    hide After;
    hide MetricsInv;
    assert ExecutionInv(t.runs[i], t.clock);
    hide RequestOf;
    hide Heard;
    hide Drift.Told;
    hide Drift.Inv;
    hide Drift.ToldPc;
    hide Drift.Invalid;
    var e := t.runs[i];
    var comparable, action := Drift.ComparesTo(e.base, ys), Drift.ActionOn(e.base, ys);
    Drift.PlaceIff(e.flow.drift, e.base, ys, p);
    if Drift.Invalid(ys, comparable, action, last) {
      Drift.InvalidNeverActive(e.flow.drift, e.base, e.last, ys, last);
    }
  }

  /** The answers decide how an override run ends, given how many extensions it consumed and why its wait
      ended; it has received the extensions it was sent, and was terminated exactly if it was told to. */
  lemma OverrideOutcomeIff(s: State, steps: seq<Step>, i: nat, o: Override.Outcome)
    requires Initial(s) && i < |After(s, steps).runs| && After(s, steps).runs[i].flow.OverrideFlow?
    ensures var r, q := After(s, steps).runs[i].flow.override, RequestOf(s, steps, i);
            var ys, gs := Heard(s, steps, i), Sent(s, steps, i);
            && q.Some? && q.value.OverrideRequest?
            && (r.pc == Override.Closed(o) <==>
                  OverrideAnswers.ToldClosed(o, q.value.durationSeconds, |r.window.consumed|, r.window.early, ys))
            && r.window.received == OverrideAnswers.Extensions(gs)
            && r.window.terminated == OverrideAnswers.Termination(gs).Some?
  {
    EveryRunIsTold(s, steps, i);
    var t, q, ys, gs := After(s, steps), RequestOf(s, steps, i), Heard(s, steps, i), Sent(s, steps, i);
    hide After;
    hide RequestOf;
    hide Heard;
    hide Sent;
    hide OverrideAnswers.ToldPc;
    hide OverrideAnswers.ToldClosed;
    hide OverrideAnswers.Remembers;
    var r := t.runs[i].flow.override;
    OverrideAnswers.OutcomeIff(r, q.value.config, q.value.durationSeconds, ys, gs, t.clock, o);
  }

  /** An override that was not terminated is not even checked before its duration and every extension
      received by the end of its wait have passed since it was marked active; and the active time
      that it reports is that from there to the rendering of the intent. */
  lemma OverrideTimes(s: State, steps: seq<Step>, i: nat)
    requires Initial(s) && i < |After(s, steps).runs| && After(s, steps).runs[i].flow.OverrideFlow?
    ensures var r, q, ys := After(s, steps).runs[i].flow.override, RequestOf(s, steps, i), Heard(s, steps, i);
            var k, early := |r.window.consumed|, r.window.early;
            var c := OverrideAnswers.Check(k, early);
            && q.Some? && q.value.OverrideRequest?
            && (|ys| > c && !early ==>
                  && r.window.consumed == r.window.heard
                  && ys[c].at >= ys[4].at + q.value.durationSeconds + Override.Total(r.window.heard))
            && (|ys| > c + 2 && OverrideAnswers.Rendered(k, early, ys) ==>
                  r.activeSeconds == ys[c + 2].at - ys[4].at)
  {
    EveryRunIsTold(s, steps, i);
    Reachable(s, steps);
    var t, q, ys, gs := After(s, steps), RequestOf(s, steps, i), Heard(s, steps, i), Sent(s, steps, i);
    hide After;
    hide MetricsInv;
    assert ExecutionInv(t.runs[i], t.clock);
    hide RequestOf;
    hide Heard;
    hide Sent;
    var r := t.runs[i].flow.override;
    assert Override.TimeInv(r, t.clock);
    TimesOf(r, q.value.config, q.value.durationSeconds, ys, gs, t.clock);
    hide OverrideAnswers.Told;
    hide OverrideAnswers.Check;
    hide OverrideAnswers.Rendered;
    hide Override.TimeInv;
  }

  lemma TimesOf(
      r: Override.Run, payload: Json, duration: int, ys: seq<Answer>, gs: seq<Override.Signal>, now: int)
    requires OverrideAnswers.Told(r, payload, duration, ys, gs, now) && Override.TimeInv(r, now)
    ensures var k, early := |r.window.consumed|, r.window.early;
            var c := OverrideAnswers.Check(k, early);
            && (|ys| > c && !early ==>
                  && r.window.consumed == r.window.heard
                  && ys[c].at >= ys[4].at + duration + Override.Total(r.window.heard))
            && (|ys| > c + 2 && OverrideAnswers.Rendered(k, early, ys) ==>
                  r.activeSeconds == ys[c + 2].at - ys[4].at)
  {
    hide OverrideAnswers.ToldPc;
    hide OverrideAnswers.Unsafe;
    hide OverrideAnswers.Received;
    hide Override.Reported;
    hide Override.Total;
  }
}
