/** The whole system: any number of runs of the four workflows over any number of devices, started
    under the device mutex, interleaved activity by activity with signals and the clock. */
module Fleet {
  import opened Json
  import opened Devices
  import HygieneChecker
  import Network = NetworkChange
  import Emergency = EmergencyChange
  import Drift = DriftRemediation
  import Override = OperationalOverride

  datatype Flow =
    | NetworkFlow(network: Network.Run)
    | EmergencyFlow(emergency: Emergency.Run)
    | DriftFlow(drift: Drift.Run)
    | OverrideFlow(override: Override.Run)

  datatype Request =
    | ChangeRequest(rules: HygieneChecker.Rules)
    | EmergencyRequest(config: Json, ttlSeconds: int)
    | DriftRequest
    | OverrideRequest(config: Json, durationSeconds: int)

  /** A workflow execution. `base` is the device when it started and `last` the device as its own
      latest step left it. */
  datatype Execution = Execution(id: string, host: string, base: Device, last: Device, flow: Flow)

  datatype State = State(
    runs: seq<Execution>, devices: map<string, Device>, clock: int, metrics: Override.Metrics)

  datatype Step =
    | Start(host: string, request: Request)
    | Advance(run: nat, reply: Reply)
    | Send(run: nat, signal: Override.Signal)
    | Tick(seconds: nat)

  // --- the mutex ----------------------------------------------------------------------------

  /** The characters that Python's `str.strip` removes. */
  predicate IsSpace(c: char) {
    var n := c as int;
    || 9 <= n <= 13 || 28 <= n <= 32 || n == 0x85 || n == 0xA0 || n == 0x1680
    || 0x2000 <= n <= 0x200A || n == 0x2028 || n == 0x2029 || n == 0x202F || n == 0x205F || n == 0x3000
  }

  predicate Blank(host: string) {
    forall i | 0 <= i < |host| :: IsSpace(host[i])
  }

  /** One identifier for every kind of workflow on a device; none for a blank host name. */
  function DeviceWorkflowId(host: string): Option<string> {
    if Blank(host) then None else Some("device-ops-" + host)
  }

  lemma WorkflowIdInjective(a: string, b: string)
    requires DeviceWorkflowId(a).Some? && DeviceWorkflowId(a) == DeviceWorkflowId(b)
    ensures a == b
  {
    var p := "device-ops-";
    assert (p + a)[|p|..] == a && (p + b)[|p|..] == b;
  }

  predicate IsOpen(f: Flow) {
    match f
    case NetworkFlow(r) => r.pc.At?
    case EmergencyFlow(r) => r.pc.At?
    case DriftFlow(r) => r.pc.At?
    case OverrideFlow(r) => r.pc.At?
  }

  predicate Running(s: State, id: string) {
    exists i | 0 <= i < |s.runs| :: IsOpen(s.runs[i].flow) && s.runs[i].id == id
  }

  // --- the steps ----------------------------------------------------------------------------

  function DeviceOf(s: State, host: string): Device {
    if host in s.devices then s.devices[host] else Device(Obj(map[]), Active)
  }

  function StartFlow(q: Request): Flow {
    match q
    case ChangeRequest(rules) => NetworkFlow(Network.Start(rules))
    case EmergencyRequest(config, ttl) => EmergencyFlow(Emergency.Start(config, ttl))
    case DriftRequest => DriftFlow(Drift.Start())
    case OverrideRequest(config, duration) => OverrideFlow(Override.Start(config, duration))
  }

  function FlowStep(f: Flow, d: Device, m: Override.Metrics, now: int, y: Reply): (Flow, Device, Override.Metrics) {
    match f
    case NetworkFlow(r) => var (r', d') := Network.Step(r, d, y); (NetworkFlow(r'), d', m)
    case EmergencyFlow(r) => var (r', d') := Emergency.Step(r, d, now, y); (EmergencyFlow(r'), d', m)
    case DriftFlow(r) => var (r', d') := Drift.Step(r, d, y); (DriftFlow(r'), d', m)
    case OverrideFlow(r) => var (r', d', m') := Override.Step(r, d, m, now, y); (OverrideFlow(r'), d', m')
  }

  function FlowSignal(f: Flow, g: Override.Signal): Flow {
    match f
    case OverrideFlow(r) => OverrideFlow(Override.Handle(r, g))
    case _ => f
  }

  function Next(s: State, step: Step): State {
    match step
    case Start(host, request) =>
      var id := DeviceWorkflowId(host);
      if id.None? || Running(s, id.value) then s
      else
        var d := DeviceOf(s, host);
        s.(runs := s.runs + [Execution(id.value, host, d, d, StartFlow(request))])
    case Advance(i, reply) =>
      if i < |s.runs| && IsOpen(s.runs[i].flow) then
        var e := s.runs[i];
        var (f, d, m) := FlowStep(e.flow, DeviceOf(s, e.host), s.metrics, s.clock, reply);
        s.(runs := s.runs[i := e.(flow := f, last := d)], devices := s.devices[e.host := d], metrics := m)
      else s
    case Send(i, signal) =>
      if i < |s.runs| && IsOpen(s.runs[i].flow) then
        s.(runs := s.runs[i := s.runs[i].(flow := FlowSignal(s.runs[i].flow, signal))])
      else s
    case Tick(seconds) => s.(clock := s.clock + seconds)
  }

  function After(s: State, steps: seq<Step>): State {
    if steps == [] then s else Next(After(s, steps[..|steps| - 1]), steps[|steps| - 1])
  }

  /** No run yet; any devices, any time. */
  predicate Initial(s: State) {
    s.runs == [] && s.metrics == Override.Metrics(0, 0, 0, 0)
  }

  // --- the invariant ------------------------------------------------------------------------

  predicate FlowInv(f: Flow, base: Device, last: Device, now: int) {
    match f
    case NetworkFlow(r) => Network.Inv(r, base, last)
    case EmergencyFlow(r) => Emergency.Inv(r, base, last, now)
    case DriftFlow(r) => Drift.Inv(r, base, last)
    case OverrideFlow(r) => Override.TimeInv(r, now) && Override.DeviceInv(r, base, last)
  }

  predicate ExecutionInv(e: Execution, now: int) {
    && DeviceWorkflowId(e.host) == Some(e.id)
    && FlowInv(e.flow, e.base, e.last, now)
  }

  /** At most one open run on a device. */
  predicate Exclusive(s: State) {
    forall i, j | 0 <= i < j < |s.runs| && IsOpen(s.runs[i].flow) && IsOpen(s.runs[j].flow) ::
      s.runs[i].host != s.runs[j].host
  }

  /** An open run finds its device as it left it. */
  predicate Undisturbed(s: State) {
    forall i | 0 <= i < |s.runs| && IsOpen(s.runs[i].flow) :: s.runs[i].last == DeviceOf(s, s.runs[i].host)
  }

  predicate RunsInv(s: State) {
    && (forall i | 0 <= i < |s.runs| :: ExecutionInv(s.runs[i], s.clock))
    && Exclusive(s) && Undisturbed(s)
  }

  /** What the metrics count of one run. */
  datatype Mark = CountedActive | AppliedOnce | RevertedOnce | FailedOnce

  function MarkOf(f: Flow, k: Mark): nat {
    match f
    case OverrideFlow(r) =>
      (match k
       case CountedActive => Override.One(Override.Counted(r))
       case AppliedOnce => Override.One(r.applied)
       case RevertedOnce => Override.One(r.reverted)
       case FailedOnce => Override.One(r.failureRecorded))
    case _ => 0
  }

  function Sum(runs: seq<Execution>, k: Mark): nat {
    if runs == [] then 0 else Sum(runs[..|runs| - 1], k) + MarkOf(runs[|runs| - 1].flow, k)
  }

  predicate MetricsInv(s: State) {
    && s.metrics.active == Sum(s.runs, CountedActive)
    && s.metrics.applies == Sum(s.runs, AppliedOnce)
    && s.metrics.reverts == Sum(s.runs, RevertedOnce)
    && s.metrics.failures == Sum(s.runs, FailedOnce)
  }

  // --- single steps -------------------------------------------------------------------------

  lemma StartFlowHolds(q: Request, d: Device, now: int)
    ensures FlowInv(StartFlow(q), d, d, now)
    ensures forall k :: MarkOf(StartFlow(q), k) == 0
  {
    hide Merge;
  }

  lemma FlowStepKeepsInv(f: Flow, base: Device, d: Device, m: Override.Metrics, now: int, y: Reply)
    requires FlowInv(f, base, d, now)
    ensures var (f', d', _) := FlowStep(f, d, m, now, y); FlowInv(f', base, d', now)
  {
    hide Network.Step;
    hide Network.Inv;
    hide Emergency.Step;
    hide Emergency.Inv;
    hide Drift.Step;
    hide Drift.Inv;
    hide Override.Step;
    hide Override.TimeInv;
    hide Override.DeviceInv;
    match f
    case NetworkFlow(r) => Network.StepKeepsInv(r, base, d, y);
    case EmergencyFlow(r) => Emergency.StepKeepsInv(r, base, d, now, y);
    case DriftFlow(r) => Drift.StepKeepsInv(r, base, d, y);
    case OverrideFlow(r) =>
      Override.StepKeepsTime(r, d, m, now, y);
      Override.StepKeepsDevice(r, base, d, m, now, y);
  }

  lemma FlowSignalKeepsInv(f: Flow, base: Device, d: Device, now: int, g: Override.Signal)
    requires FlowInv(f, base, d, now)
    ensures FlowInv(FlowSignal(f, g), base, d, now)
    ensures IsOpen(FlowSignal(f, g)) == IsOpen(f)
    ensures forall k :: MarkOf(FlowSignal(f, g), k) == MarkOf(f, k)
  {
    hide Override.TimeInv;
    hide Merge;
    match f
    case OverrideFlow(r) => Override.HandleKeepsTime(r, g, now);
    case _ =>
  }

  lemma FlowTimeKeepsInv(f: Flow, base: Device, d: Device, now: int, later: int)
    requires FlowInv(f, base, d, now) && now <= later
    ensures FlowInv(f, base, d, later)
  {
    hide Override.DeviceInv;
    hide Merge;
    hide Override.Total;
  }

  lemma NextKeepsRuns(s: State, step: Step)
    requires RunsInv(s)
    ensures RunsInv(Next(s, step))
  {
    hide FlowInv;
    hide FlowStep;
    hide StartFlow;
    hide FlowSignal;
    var t := Next(s, step);
    match step
    case Start(host, request) =>
      StartFlowHolds(request, DeviceOf(s, host), s.clock);
    case Advance(i, reply) =>
      if i < |s.runs| && IsOpen(s.runs[i].flow) {
        var e := s.runs[i];
        FlowStepKeepsInv(e.flow, e.base, e.last, s.metrics, s.clock, reply);
      }
    case Send(i, signal) =>
      if i < |s.runs| {
        var e := s.runs[i];
        FlowSignalKeepsInv(e.flow, e.base, e.last, s.clock, signal);
      }
    case Tick(seconds) =>
      forall j | 0 <= j < |s.runs| ensures ExecutionInv(t.runs[j], t.clock) {
        FlowTimeKeepsInv(s.runs[j].flow, s.runs[j].base, s.runs[j].last, s.clock, t.clock);
      }
  }

  lemma {:induction false} SumAppend(runs: seq<Execution>, e: Execution, k: Mark)
    ensures Sum(runs + [e], k) == Sum(runs, k) + MarkOf(e.flow, k)
  {
    assert (runs + [e])[..|runs|] == runs;
  }

  lemma {:induction false} SumUpdate(runs: seq<Execution>, i: nat, e: Execution, k: Mark)
    requires i < |runs|
    ensures Sum(runs[i := e], k) == Sum(runs, k) - MarkOf(runs[i].flow, k) + MarkOf(e.flow, k)
    decreases |runs|
  {
    var n := |runs| - 1;
    if i < n {
      SumUpdate(runs[..n], i, e, k);
      assert runs[i := e][..n] == runs[..n][i := e];
    } else {
      assert runs[i := e][..n] == runs[..n];
    }
  }

  /** A step of a run moves each metric by what it moves the run's own mark. */
  lemma FlowStepCounts(f: Flow, base: Device, d: Device, m: Override.Metrics, now: int, y: Reply)
    requires FlowInv(f, base, d, now)
    ensures var (f', _, m') := FlowStep(f, d, m, now, y);
            && m'.active == m.active - MarkOf(f, CountedActive) + MarkOf(f', CountedActive)
            && m'.applies == m.applies - MarkOf(f, AppliedOnce) + MarkOf(f', AppliedOnce)
            && m'.reverts == m.reverts - MarkOf(f, RevertedOnce) + MarkOf(f', RevertedOnce)
            && m'.failures == m.failures - MarkOf(f, FailedOnce) + MarkOf(f', FailedOnce)
  {
    hide Network.Step;
    hide Emergency.Step;
    hide Drift.Step;
    hide Override.Step;
    hide Override.TimeInv;
    hide Override.DeviceInv;
    match f
    case OverrideFlow(r) => Override.StepCounts(r, base, d, m, now, y);
    case _ =>
  }

  lemma NextKeepsMetrics(s: State, step: Step)
    requires RunsInv(s) && MetricsInv(s)
    ensures MetricsInv(Next(s, step))
  {
    hide FlowInv;
    hide FlowStep;
    hide FlowSignal;
    hide StartFlow;
    hide Sum;
    hide MarkOf;
    match step
    case Start(host, request) =>
      var d := DeviceOf(s, host);
      StartFlowHolds(request, d, s.clock);
      var id := DeviceWorkflowId(host);
      if id.Some? {
        forall k: Mark { SumAppend(s.runs, Execution(id.value, host, d, d, StartFlow(request)), k); }
      }
    case Advance(i, reply) =>
      if i < |s.runs| && IsOpen(s.runs[i].flow) {
        var e := s.runs[i];
        var (f, d, m) := FlowStep(e.flow, DeviceOf(s, e.host), s.metrics, s.clock, reply);
        FlowStepCounts(e.flow, e.base, e.last, s.metrics, s.clock, reply);
        forall k: Mark { SumUpdate(s.runs, i, e.(flow := f, last := d), k); }
      }
    case Send(i, signal) =>
      if i < |s.runs| {
        var e := s.runs[i];
        FlowSignalKeepsInv(e.flow, e.base, e.last, s.clock, signal);
        forall k: Mark { SumUpdate(s.runs, i, e.(flow := FlowSignal(e.flow, signal)), k); }
      }
    case Tick(_) =>
  }

  // --- every reachable state ----------------------------------------------------------------

  predicate Inv(s: State) {
    RunsInv(s) && MetricsInv(s)
  }

  lemma NextKeepsInv(s: State, step: Step)
    requires Inv(s)
    ensures Inv(Next(s, step))
  {
    hide RunsInv;
    hide MetricsInv;
    hide Next;
    NextKeepsRuns(s, step);
    NextKeepsMetrics(s, step);
  }

  lemma {:induction false} InvKept(s: State, steps: seq<Step>)
    requires Inv(s)
    ensures Inv(After(s, steps))
    decreases |steps|
  {
    hide Inv;
    hide Next;
    if steps != [] {
      InvKept(s, steps[..|steps| - 1]);
      NextKeepsInv(After(s, steps[..|steps| - 1]), steps[|steps| - 1]);
    }
  }

  /** From any fleet without runs, whatever is started, answered, signalled and waited. */
  lemma Reachable(s: State, steps: seq<Step>)
    requires Initial(s)
    ensures Inv(After(s, steps))
  {
    InvKept(s, steps);
  }

  /** A start is refused, changing nothing, exactly when the host name is blank or the same device
      already has an open run: other devices never block it. */
  lemma StartRefusedIff(s: State, host: string, q: Request)
    requires Inv(s)
    ensures Next(s, Start(host, q)) == s <==>
            Blank(host) || exists i | 0 <= i < |s.runs| :: IsOpen(s.runs[i].flow) && s.runs[i].host == host
  {
    var id := DeviceWorkflowId(host);
    if id.Some? {
      forall i | 0 <= i < |s.runs| ensures s.runs[i].id == id.value <==> s.runs[i].host == host {
        assert ExecutionInv(s.runs[i], s.clock);
        if s.runs[i].id == id.value { WorkflowIdInjective(s.runs[i].host, host); }
      }
      if !Running(s, id.value) {
        assert |Next(s, Start(host, q)).runs| == |s.runs| + 1;
      }
    }
  }

  lemma {:induction false} SumsBalance(runs: seq<Execution>, now: int)
    requires forall i | 0 <= i < |runs| :: ExecutionInv(runs[i], now)
    ensures Sum(runs, AppliedOnce) == Sum(runs, CountedActive) + Sum(runs, RevertedOnce) + Sum(runs, FailedOnce)
    decreases |runs|
  {
    if runs != [] {
      var n := |runs| - 1;
      SumsBalance(runs[..n], now);
      MarksBalance(runs[n], now);
    }
  }

  lemma MarksBalance(e: Execution, now: int)
    requires ExecutionInv(e, now)
    ensures MarkOf(e.flow, AppliedOnce)
            == MarkOf(e.flow, CountedActive) + MarkOf(e.flow, RevertedOnce) + MarkOf(e.flow, FailedOnce)
  {
    hide Merge;
    hide Override.TimeInv;
    hide Network.Inv;
    hide Emergency.Inv;
    hide Drift.Inv;
    match e.flow
    case OverrideFlow(r) =>
      Override.StepCounts(
        r, e.base, e.last, Override.Metrics(0, 0, 0, 0), now, Reply(true, [], Null, Null, true, true));
    case _ =>
  }

  /** The active gauge is the number of overrides applied and neither reverted nor given up (`MetricsInv`);
      it is never negative, and every apply is accounted for exactly once. */
  lemma GaugeBalances(s: State, steps: seq<Step>)
    requires Initial(s)
    ensures var m := After(s, steps).metrics;
            0 <= m.active && m.applies == m.active + m.reverts + m.failures
  {
    Reachable(s, steps);
    var t := After(s, steps);
    SumsBalance(t.runs, t.clock);
  }
}
