/** What the answers in a history decide for good: which override runs the gauge never releases, and what a
    run does after its reversion safety check. */
module FleetEvents {
  import opened Json
  import opened Devices
  import opened Fleet
  import opened FleetSafety
  import Network = NetworkChange
  import Emergency = EmergencyChange
  import Drift = DriftRemediation
  import Override = OperationalOverride
  import OverrideAnswers

  // --- events -------------------------------------------------------------------------------

  /** An answer to an override run. `AccountLost`: the failure of an activity outside any handler between
      apply and revert, or of the one that records a failed revert. `CheckSaid`: what the safety check
      said. `FailureRecorded`: the record of a failed revert returned. */
  datatype Event = AccountLost | CheckSaid(safe: bool) | FailureRecorded

  /** Answer `y` to flow `f` is this event. */
  predicate Happens(v: Event, f: Flow, y: Reply) {
    && f.OverrideFlow? && f.override.pc.At?
    && var stage := f.override.pc.stage;
       match v
       case AccountLost =>
         !y.ok && (Override.Unguarded(stage) || stage in {Override.RecordUnsafe, Override.RecordFailure})
       case CheckSaid(safe) => y.ok && stage == Override.CheckSafety && y.passes == safe
       case FailureRecorded => y.ok && stage in {Override.RecordUnsafe, Override.RecordFailure}
  }

  /** Step `k` of `steps` is this event of run `i`. */
  predicate HappensAt(v: Event, s: State, steps: seq<Step>, k: nat, i: nat) {
    && k < |steps| && steps[k].Advance? && steps[k].run == i
    && var t := After(s, steps[..k]);
       i < |t.runs| && Happens(v, t.runs[i].flow, steps[k].reply)
  }

  ghost predicate Happened(v: Event, s: State, steps: seq<Step>, i: nat) {
    exists k | 0 <= k < |steps| :: HappensAt(v, s, steps, k, i)
  }

  /** Where a lost account leaves the run for the rest of its life. */
  predicate Doomed(f: Flow) {
    match f
    case OverrideFlow(r) =>
      (match r.pc
       case Closed(Rejected(AuditUnsafe)) | Closed(Crashed(AuditUnsafe)) | Closed(Rejected(AuditRevertFailed)) =>
         !r.failureRecorded
       case At(AuditUnsafe) | At(AuditRevertFailed) => !r.failureRecorded
       case Closed(Crashed(s)) => Override.Unguarded(s)
       case _ => false)
    case _ => false
  }

  lemma OverrideStepDooms(r: Override.Run, base: Device, d: Device, m: Override.Metrics, now: int, y: Reply)
    requires Override.DeviceInv(r, base, d) && r.pc.At?
    ensures Doomed(OverrideFlow(Override.Step(r, d, m, now, y).0))
            <==> Doomed(OverrideFlow(r)) || Happens(AccountLost, OverrideFlow(r), y)
  {
    hide Merge;
    hide Push;
    hide Override.Drain;
    hide Override.LoopHead;
    LoopStaysOpen(r.window, now);
  }

  lemma LoopStaysOpen(w: Override.Window, now: int)
    ensures Override.WaitStage(Override.LoopHead(w, now).0) && Override.WaitStage(Override.Drain(w, now).0)
  {
  }

  /** Where a run is of which the event lies in the past. */
  predicate Past(v: Event, f: Flow) {
    f.OverrideFlow? &&
    match v
    case AccountLost => Doomed(f)
    case CheckSaid(safe) => Override.SafetyOf(f.override.pc) == Some(safe)
    case FailureRecorded => f.override.failureRecorded
  }

  /** What an answer at point `p` makes of what the safety check must have said. */
  function Said(p: Override.Pc, y: Reply): Option<bool> {
    if p == Override.At(Override.CheckSafety) && y.ok then Some(y.passes) else Override.SafetyOf(p)
  }

  lemma OpeningSays(s: Override.Stage, y: Reply)
    requires Override.PhaseOf(Override.At(s)) == Override.Opening
    ensures Override.SafetyOf(Override.AfterOpening(s, y)) == Said(Override.At(s), y)
  {
  }

  lemma WaitSays(r: Override.Run, now: int, y: Reply)
    requires Override.PhaseOf(r.pc) == Override.Open
    ensures Override.SafetyOf(Override.WaitStep(r, now, y).pc) == Said(r.pc, y)
  {
    OverrideAnswers.WaitLoops(r, now, y);
    WaitCrashes(r, now, y);
    WaitIsSilent(r.pc.stage);
    var p := Override.WaitStep(r, now, y).pc;
    if p.At? { WaitIsSilent(p.stage); }
    hide Override.WaitStep;
    hide Override.SafetyOf;
    hide Override.PhaseOf;
  }

  lemma WaitCrashes(r: Override.Run, now: int, y: Reply)
    requires Override.PhaseOf(r.pc) == Override.Open
    ensures var p := Override.WaitStep(r, now, y).pc;
            p.Closed? ==> p == Override.Closed(Override.Crashed(r.pc.stage))
  {
    hide Override.Drain;
    hide Override.LoopHead;
  }

  lemma WaitIsSilent(s: Override.Stage)
    ensures Override.WaitStage(s) || Override.PhaseOf(Override.At(s)) == Override.Open ==>
              Override.SafetyOf(Override.At(s)) == None
    ensures Override.PhaseOf(Override.At(s)) == Override.Open ==>
              s != Override.CheckSafety && Override.SafetyOf(Override.Closed(Override.Crashed(s))) == None
  {
  }

  lemma EndingSays(s: Override.Stage, y: Reply)
    requires Override.PhaseOf(Override.At(s)) == Override.Ending
    ensures Override.SafetyOf(Override.AfterSafety(s, y)) == Said(Override.At(s), y)
  {
  }

  lemma RevertSays(s: Override.Stage, early: bool, y: Reply)
    requires Override.PhaseOf(Override.At(s)) == Override.Reverting
    ensures Override.SafetyOf(Override.AfterRevert(s, early, y)) == Said(Override.At(s), y)
  {
  }

  /** Only the safety check itself moves what it must have said. */
  lemma StepSays(r: Override.Run, d: Device, m: Override.Metrics, now: int, y: Reply)
    requires r.pc.At?
    ensures Override.SafetyOf(Override.Step(r, d, m, now, y).0.pc) == Said(r.pc, y)
  {
    hide Override.OpeningStep;
    hide Override.WaitStep;
    hide Override.SafetyStep;
    hide Override.RevertStep;
    hide Override.SafetyOf;
    hide Override.AfterSafety;
    hide Override.AfterRevert;
    hide Override.AfterOpening;
    hide Said;
    match Override.PhaseOf(r.pc)
    case Opening =>
      Override.OpeningStepGoes(r, d, m, now, y);
      OpeningSays(r.pc.stage, y);
    case Open => WaitSays(r, now, y);
    case Ending =>
      Override.SafetyStepGoes(r, m, now, y);
      EndingSays(r.pc.stage, y);
    case Reverting =>
      Override.RevertStepGoes(r, d, m, y);
      RevertSays(r.pc.stage, r.window.early, y);
  }

  lemma StepRecords(r: Override.Run, d: Device, m: Override.Metrics, now: int, y: Reply)
    requires r.pc.At?
    ensures Override.Step(r, d, m, now, y).0.failureRecorded <==>
            || r.failureRecorded
            || (y.ok && r.pc.stage in {Override.RecordUnsafe, Override.RecordFailure})
  {
    hide Override.OpeningStep;
    hide Override.WaitStep;
    hide Override.SafetyStep;
    hide Override.RevertStep;
    match Override.PhaseOf(r.pc)
    case Opening => Override.OpeningFrame(r, d, m, now, y);
    case Open => OverrideAnswers.WaitLoops(r, now, y);
    case Ending => OverrideAnswers.SafetyFlags(r, m, now, y);
    case Reverting => OverrideAnswers.RevertFlags(r, d, m, y);
  }

  lemma FlowStepPasses(v: Event, e: Execution, m: Override.Metrics, now: int, y: Reply)
    requires ExecutionInv(e, now) && IsOpen(e.flow)
    ensures Past(v, FlowStep(e.flow, e.last, m, now, y).0) <==> Past(v, e.flow) || Happens(v, e.flow, y)
  {
    hide Network.Step;
    hide Emergency.Step;
    hide Drift.Step;
    hide Override.Step;
    hide Override.TimeInv;
    hide Override.DeviceInv;
    match e.flow
    case OverrideFlow(r) =>
      OverrideStepDooms(r, e.base, e.last, m, now, y);
      StepSays(r, e.last, m, now, y);
      StepRecords(r, e.last, m, now, y);
    case _ =>
    hide Doomed;
  }

  lemma SignalsPass(v: Event, f: Flow, g: Override.Signal)
    ensures Past(v, FlowSignal(f, g)) == Past(v, f)
  {
  }

  lemma StartsBefore(v: Event, q: Request)
    ensures !Past(v, StartFlow(q))
  {
  }

  /** One step of the fleet, seen from run `i`. */
  lemma NextPasses(v: Event, t: State, step: Step, i: nat)
    requires Inv(t) && i < |Next(t, step).runs|
    ensures i < |t.runs| ==>
              (Past(v, Next(t, step).runs[i].flow) <==>
                 Past(v, t.runs[i].flow)
                 || (step.Advance? && step.run == i && Happens(v, t.runs[i].flow, step.reply)))
    ensures i >= |t.runs| ==> !Past(v, Next(t, step).runs[i].flow)
  {
    hide Past;
    hide FlowStep;
    hide FlowSignal;
    hide StartFlow;
    hide MetricsInv;
    hide FlowInv;
    match step
    case Start(_, request) => StartsBefore(v, request);
    case Advance(j, reply) =>
      if j == i && i < |t.runs| && IsOpen(t.runs[i].flow) {
        assert ExecutionInv(t.runs[i], t.clock);
        FlowStepPasses(v, t.runs[i], t.metrics, t.clock, reply);
      }
    case Send(_, signal) => if i < |t.runs| { SignalsPass(v, t.runs[i].flow, signal); }
    case Tick(_) =>
  }

  lemma HappenedSnoc(v: Event, s: State, steps: seq<Step>, i: nat)
    requires steps != []
    ensures Happened(v, s, steps, i)
            <==> Happened(v, s, steps[..|steps| - 1], i) || HappensAt(v, s, steps, |steps| - 1, i)
  {
    hide After;
    hide Happens;
    var n := |steps| - 1;
    forall k | 0 <= k < n ensures HappensAt(v, s, steps[..n], k, i) <==> HappensAt(v, s, steps, k, i) {
      assert steps[..n][..k] == steps[..k];
    }
  }

  lemma NothingHappensBefore(v: Event, s: State, steps: seq<Step>, i: nat)
    requires i >= |After(s, steps).runs|
    ensures !Happened(v, s, steps, i)
  {
    hide Happens;
    forall k | 0 <= k < |steps| ensures !HappensAt(v, s, steps, k, i) {
      RunsGrow(s, steps, k);
      hide After;
    }
  }

  /** In every reachable fleet: where a run is, and the steps of the history that brought it there. */
  lemma {:induction false} PastIffHappened(v: Event, s: State, steps: seq<Step>, i: nat)
    requires Initial(s) && i < |After(s, steps).runs|
    ensures Past(v, After(s, steps).runs[i].flow) <==> Happened(v, s, steps, i)
    decreases |steps|
  {
    if steps != [] {
      var n := |steps| - 1;
      var t := After(s, steps[..n]);
      Reachable(s, steps[..n]);
      NextPasses(v, t, steps[n], i);
      hide Next;
      hide Inv;
      hide Past;
      hide Happens;
      HappenedSnoc(v, s, steps, i);
      if i < |t.runs| {
        PastIffHappened(v, s, steps[..n], i);
      } else {
        NothingHappensBefore(v, s, steps[..n], i);
      }
    }
  }

  // --- the active gauge ---------------------------------------------------------------------

  lemma {:induction false} SumZeroIff(runs: seq<Execution>, k: Mark)
    ensures Sum(runs, k) == 0 <==> forall i | 0 <= i < |runs| :: MarkOf(runs[i].flow, k) == 0
    decreases |runs|
  {
    if runs != [] {
      SumZeroIff(runs[..|runs| - 1], k);
      assert forall i | 0 <= i < |runs| - 1 :: runs[i] == runs[..|runs| - 1][i];
    }
  }

  lemma LeakIsCounted(e: Execution)
    requires Ended(e)
    ensures Doomed(e.flow) <==> MarkOf(e.flow, CountedActive) == 1
    ensures MarkOf(e.flow, CountedActive) <= 1
  {
    hide Merge;
    hide Network.Ending;
    hide Emergency.Ending;
    hide Drift.Ending;
    match e.flow
    case OverrideFlow(r) => Override.ClosedCountedIff(r, r.pc.outcome, e.base, e.last);
    case _ =>
  }

  predicate AllClosed(t: State) {
    forall i | 0 <= i < |t.runs| :: !IsOpen(t.runs[i].flow)
  }

  predicate NoneLeaked(t: State) {
    forall i | 0 <= i < |t.runs| :: !Doomed(t.runs[i].flow)
  }

  lemma DrainedIff(t: State)
    requires Inv(t) && AllClosed(t)
    ensures t.metrics.active == 0 <==> NoneLeaked(t)
  {
    hide RunsInv;
    hide Doomed;
    hide MarkOf;
    hide Ended;
    hide IsOpen;
    hide Sum;
    SumZeroIff(t.runs, CountedActive);
    forall i | 0 <= i < |t.runs|
      ensures Doomed(t.runs[i].flow) <==> MarkOf(t.runs[i].flow, CountedActive) != 0
    {
      assert !IsOpen(t.runs[i].flow);
      ClosedRunEnded(t, i);
      LeakIsCounted(t.runs[i]);
    }
  }

  /** A closed override run of a reachable fleet is still in the gauge exactly when some answer of the
      environment lost its account. */
  lemma CountedIffLost(s: State, steps: seq<Step>, i: nat)
    requires Initial(s)
    requires i < |After(s, steps).runs| && !IsOpen(After(s, steps).runs[i].flow)
    ensures MarkOf(After(s, steps).runs[i].flow, CountedActive) == (if Happened(AccountLost, s, steps, i) then 1 else 0)
  {
    PastIffHappened(AccountLost, s, steps, i);
    EveryRunEnds(s, steps, i);
    hide After;
    var e := After(s, steps).runs[i];
    LeakIsCounted(e);
    hide MarkOf;
    hide Ended;
  }

  /** Once every run is closed the gauge is back at zero exactly when no answer ever lost an override:
      no activity between its apply and its revert failed outside a handler, and no record of a failed
      revert failed itself. */
  lemma GaugeDrainsIff(s: State, steps: seq<Step>)
    requires Initial(s) && AllClosed(After(s, steps))
    ensures After(s, steps).metrics.active == 0
            <==> forall k, i: nat | 0 <= k < |steps| :: !HappensAt(AccountLost, s, steps, k, i)
    ensures After(s, steps).metrics.active == 0 <==> NoneLeaked(After(s, steps))
  {
    hide Inv;
    hide After;
    Reachable(s, steps);
    var t := After(s, steps);
    DrainedIff(t);
    forall i | 0 <= i < |t.runs| ensures Doomed(t.runs[i].flow) <==> Happened(AccountLost, s, steps, i) {
      assert !IsOpen(t.runs[i].flow);
      PastIffHappened(AccountLost, s, steps, i);
    }
    hide Doomed;
    hide HappensAt;
    if k, i: nat :| 0 <= k < |steps| && HappensAt(AccountLost, s, steps, k, i) {
      LosingRunExists(s, steps, k, i);
      assert Happened(AccountLost, s, steps, i) && Doomed(t.runs[i].flow);
    }
    if i :| 0 <= i < |t.runs| && Doomed(t.runs[i].flow) {
      var k :| 0 <= k < |steps| && HappensAt(AccountLost, s, steps, k, i);
    }
  }

  lemma LosingRunExists(s: State, steps: seq<Step>, k: nat, i: nat)
    requires HappensAt(AccountLost, s, steps, k, i)
    ensures i < |After(s, steps).runs|
  {
    RunsGrow(s, steps, k);
    hide After;
  }

  // --- the safety check ---------------------------------------------------------------------

  /** The points after a safety check that said no. */
  predicate GivingUp(p: Override.Pc) {
    p in {Override.At(Override.RecordUnsafe), Override.At(Override.StatusUnsafe), Override.At(Override.AuditUnsafe),
          Override.Closed(Override.Rejected(Override.AuditUnsafe)),
          Override.Closed(Override.Crashed(Override.AuditUnsafe))}
  }

  /** The points from the revert on. */
  predicate ReachedRevert(p: Override.Pc) {
    || Override.PhaseOf(p) == Override.Reverting
    || p in {Override.Closed(Override.Reverted), Override.Closed(Override.Cancelled),
             Override.Closed(Override.Rejected(Override.AuditRevertFailed))}
  }

  /** An override run whose safety check said no never writes again: whatever happens afterwards, its
      device stays with the override merged into what it was, and the run closes with the unsafe audit
      or its failure; the gauge then releases it exactly when a step recorded the failure. */
  lemma UnsafeNeverReverts(s: State, steps: seq<Step>, i: nat)
    requires Initial(s) && i < |After(s, steps).runs| && Happened(CheckSaid(false), s, steps, i)
    ensures var e := After(s, steps).runs[i];
            && e.flow.OverrideFlow? && GivingUp(e.flow.override.pc) && !e.flow.override.reverted
            && e.last == Device(Merge(e.base.config, e.flow.override.payload), e.base.status)
            && (IsOpen(e.flow) ==> DeviceOf(After(s, steps), e.host) == e.last)
            && (!IsOpen(e.flow) ==>
                  (MarkOf(e.flow, CountedActive) == 0 <==> Happened(FailureRecorded, s, steps, i)))
  {
    PastIffHappened(CheckSaid(false), s, steps, i);
    PastIffHappened(FailureRecorded, s, steps, i);
    Reachable(s, steps);
    var t := After(s, steps);
    hide After;
    hide MetricsInv;
    hide Happened;
    assert ExecutionInv(t.runs[i], t.clock);
    var e := t.runs[i];
    UnsafeLeft(e.flow.override, e.base, e.last);
    hide Override.DeviceInv;
    hide Override.TimeInv;
    hide Override.SafetyOf;
  }

  lemma UnsafeLeft(r: Override.Run, base: Device, d: Device)
    requires Override.DeviceInv(r, base, d) && Override.SafetyOf(r.pc) == Some(false)
    ensures GivingUp(r.pc) && !r.reverted && r.applied
    ensures d == Device(Merge(base.config, r.payload), base.status)
  {
    hide Merge;
  }

  /** An override run gets to its revert, and so to a returned result, only if a step of its history was
      the answer yes to its safety check, and none was the answer no. */
  lemma RevertIsSafe(s: State, steps: seq<Step>, i: nat)
    requires Initial(s) && i < |After(s, steps).runs| && After(s, steps).runs[i].flow.OverrideFlow?
    requires ReachedRevert(After(s, steps).runs[i].flow.override.pc)
    ensures Happened(CheckSaid(true), s, steps, i) && !Happened(CheckSaid(false), s, steps, i)
  {
    PastIffHappened(CheckSaid(true), s, steps, i);
    PastIffHappened(CheckSaid(false), s, steps, i);
    hide After;
    hide Happened;
    RevertedSaysYes(After(s, steps).runs[i].flow.override.pc);
    hide ReachedRevert;
    hide Override.SafetyOf;
  }

  lemma RevertedSaysYes(p: Override.Pc)
    requires ReachedRevert(p)
    ensures Override.SafetyOf(p) == Some(true)
  {
  }
}
