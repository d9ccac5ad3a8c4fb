/** The time-bounded override as a step machine driven by activities, signals and a durable timer. */
module OperationalOverride {
  import opened Json
  import opened Devices

  datatype Stage =
    | AuditInitiated | Capture | StoreBackup | Apply | AuditApplyFailed
    | MarkOverrideActive | AuditApplied
    | RecordExtension | AuditExtension | Waiting
    | AuditTerminated | CheckSafety | RecordUnsafe | StatusUnsafe | AuditUnsafe
    | FetchIntent | Render
    | Revert | RecordFailure | StatusFailed | AuditRevertFailed
    | MarkFinal | AuditFinal

  datatype Outcome = Reverted | Cancelled | Refused | Rejected(at: Stage) | Crashed(at: Stage)

  datatype Pc = At(stage: Stage) | Closed(outcome: Outcome)

  datatype Extension = Extension(seconds: int, reason: string)

  datatype Signal = TerminateEarly(reason: string) | ExtendWindow(seconds: int, reason: string)

  /** The override metrics of the worker: the active gauge, and the counters of applies, successful
      reverts and abandoned reverts. */
  datatype Metrics = Metrics(active: int, applies: nat, reverts: nat, failures: nat)

  /** The wait of a run. `terminated`, `terminateReason` and `pending` are what the signal handlers
      write; `received`, `consumed`, `passes` (of the outer loop), and `heard` (what had been received
      when the wait ended, at `endedAt`) are history. */
  datatype Window = Window(
    terminated: bool, terminateReason: string, pending: seq<Extension>,
    appliedAt: int, endTime: int, early: bool,
    received: seq<Extension>, consumed: seq<Extension>, passes: nat,
    ended: bool, endedAt: int, heard: seq<Extension>)

  datatype Run = Run(
    pc: Pc, duration: int, payload: Json, original: Json, intended: Json,
    window: Window, safe: bool, activeSeconds: int,
    applied: bool, reverted: bool, failureRecorded: bool)

  function Start(payload: Json, duration: int): Run {
    Run(if duration <= 0 then Closed(Refused) else At(AuditInitiated), duration, payload, Null, Null,
        Window(false, "", [], 0, 0, false, [], [], 0, false, 0, []), false, 0, false, false, false)
  }

  function Total(es: seq<Extension>): int {
    if es == [] then 0 else Total(es[..|es| - 1]) + es[|es| - 1].seconds
  }

  /** A signal, handled at whatever await the run is in. */
  function HandleSignal(w: Window, s: Signal): Window {
    match s
    case TerminateEarly(reason) => w.(terminated := true, terminateReason := reason)
    case ExtendWindow(seconds, reason) =>
      if seconds <= 0 then w
      else w.(pending := w.pending + [Extension(seconds, reason)],
              received := w.received + [Extension(seconds, reason)])
  }

  function HandleAll(w: Window, signals: seq<Signal>): Window {
    if signals == [] then w
    else HandleSignal(HandleAll(w, signals[..|signals| - 1]), signals[|signals| - 1])
  }

  function Handle(r: Run, s: Signal): Run {
    r.(window := HandleSignal(r.window, s))
  }

  /** Leaving the wait, for either reason. */
  function EndWait(w: Window, now: int): (Stage, Window) {
    (if w.terminated then AuditTerminated else CheckSafety,
     w.(ended := true, endedAt := now, heard := w.received, early := w.terminated))
  }

  /** The inner loop: take the next extension; with none left, look at the clock. */
  function Drain(w: Window, now: int): (Stage, Window) {
    if w.pending != [] then
      (RecordExtension,
       w.(pending := w.pending[1..], consumed := w.consumed + [w.pending[0]],
          endTime := w.endTime + w.pending[0].seconds))
    else if w.endTime <= now then EndWait(w, now)
    else (Waiting, w)
  }

  /** The head of the outer loop. */
  function LoopHead(w: Window, now: int): (Stage, Window) {
    if w.terminated then EndWait(w, now) else Drain(w.(passes := w.passes + 1), now)
  }

  function Resume(r: Run, at: (Stage, Window)): Run {
    r.(pc := At(at.0), window := at.1)
  }

  function Goto(r: Run, ok: bool, next: Pc): Run
    requires r.pc.At?
  {
    r.(pc := if ok then next else Closed(Crashed(r.pc.stage)))
  }

  predicate Wakes(w: Window, now: int) {
    w.terminated || w.pending != [] || w.endTime <= now
  }

  function CountApply(m: Metrics): Metrics {
    m.(active := m.active + 1, applies := m.applies + 1)
  }

  function CountRevert(m: Metrics): Metrics {
    m.(active := m.active - 1, reverts := m.reverts + 1)
  }

  function CountFailure(m: Metrics): Metrics {
    m.(active := m.active - 1, failures := m.failures + 1)
  }

  /** Up to the override being marked active. */
  function OpeningStep(r: Run, d: Device, m: Metrics, now: int, y: Reply): (Run, Device, Metrics)
    requires r.pc.At?
  {
    match r.pc.stage
    case AuditInitiated => (Goto(r, y.ok, At(Capture)), d, m)
    case Capture => (Goto(r.(original := d.config), y.ok, At(StoreBackup)), d, m)
    case StoreBackup => (Goto(r, y.ok, At(Apply)), d, m)
    case Apply =>
      var (d', acked) := Push(d, Update(r.payload), y.lost);
      if acked then (r.(pc := At(MarkOverrideActive), applied := true), d', CountApply(m))
      else (r.(pc := At(AuditApplyFailed)), d', m)
    case AuditApplyFailed => (r.(pc := Closed(Rejected(AuditApplyFailed))), d, m)
    case _ => // MarkOverrideActive
      var w := r.window.(appliedAt := now, endTime := now + r.duration);
      (Goto(r.(window := w), y.ok, At(AuditApplied)), d, m)
  }

  /** From the audit that opens the window to the end of the wait. */
  function WaitStep(r: Run, now: int, y: Reply): Run
    requires r.pc.At?
  {
    match r.pc.stage
    case AuditApplied => if y.ok then Resume(r, LoopHead(r.window, now)) else Goto(r, false, r.pc)
    case RecordExtension => Goto(r, y.ok, At(AuditExtension))
    case AuditExtension => if y.ok then Resume(r, Drain(r.window, now)) else Goto(r, false, r.pc)
    case _ => // Waiting: wait_condition wakes for a signal that matters or for the timer, and else stays.
      if Wakes(r.window, now) then Resume(r, LoopHead(r.window, now)) else r
  }

  /** From the end of the wait to the revert. */
  function SafetyStep(r: Run, m: Metrics, now: int, y: Reply): (Run, Metrics)
    requires r.pc.At?
  {
    match r.pc.stage
    case AuditTerminated => (Goto(r, y.ok, At(CheckSafety)), m)
    case CheckSafety => (Goto(r.(safe := y.passes), y.ok, At(if y.passes then FetchIntent else RecordUnsafe)), m)
    case RecordUnsafe =>
      if y.ok then (r.(pc := At(StatusUnsafe), failureRecorded := true), CountFailure(m))
      else (r.(pc := At(AuditUnsafe)), m)
    case StatusUnsafe => (r.(pc := At(AuditUnsafe)), m)
    case AuditUnsafe => (Goto(r, y.ok, Closed(Rejected(AuditUnsafe))), m)
    case FetchIntent => (Goto(r, y.ok, At(Render)), m)
    case _ => // Render
      (Goto(r.(intended := y.doc, activeSeconds := now - r.window.appliedAt), y.ok, At(Revert)), m)
  }

  /** The revert and what follows it. */
  function RevertStep(r: Run, d: Device, m: Metrics, y: Reply): (Run, Device, Metrics)
    requires r.pc.At?
  {
    match r.pc.stage
    case Revert =>
      var (d', acked) := Push(d, Update(r.intended), y.lost);
      if acked then (r.(pc := At(MarkFinal), reverted := true), d', CountRevert(m))
      else (r.(pc := At(RecordFailure)), d', m)
    case RecordFailure =>
      if y.ok then (r.(pc := At(StatusFailed), failureRecorded := true), d, CountFailure(m))
      else (r.(pc := At(AuditRevertFailed)), d, m)
    case StatusFailed => (r.(pc := At(AuditRevertFailed)), d, m)
    case AuditRevertFailed => (r.(pc := Closed(Rejected(AuditRevertFailed))), d, m)
    case MarkFinal => (r.(pc := At(AuditFinal)), d, m)
    case _ => // AuditFinal
      (r.(pc := Closed(if r.window.early then Cancelled else Reverted)), d, m)
  }

  datatype Phase = Opening | Open | Ending | Reverting | Over

  function PhaseOf(p: Pc): Phase {
    match p
    case Closed(_) => Over
    case At(s) =>
      match s
      case AuditInitiated | Capture | StoreBackup | Apply | AuditApplyFailed | MarkOverrideActive => Opening
      case AuditApplied | RecordExtension | AuditExtension | Waiting => Open
      case AuditTerminated | CheckSafety | RecordUnsafe | StatusUnsafe | AuditUnsafe | FetchIntent | Render => Ending
      case Revert | RecordFailure | StatusFailed | AuditRevertFailed | MarkFinal | AuditFinal => Reverting
  }

  function Step(r: Run, d: Device, m: Metrics, now: int, y: Reply): (Run, Device, Metrics) {
    match PhaseOf(r.pc)
    case Opening => OpeningStep(r, d, m, now, y)
    case Open => (WaitStep(r, now, y), d, m)
    case Ending => var (r', m') := SafetyStep(r, m, now, y); (r', d, m')
    case Reverting => RevertStep(r, d, m, y)
    case Over => (r, d, m)
  }

  // --- the window ---------------------------------------------------------------------------

  predicate Positive(es: seq<Extension>) {
    forall i | 0 <= i < |es| :: es[i].seconds > 0
  }

  /** Extensions are conserved in order: those received are those consumed, then those pending. */
  predicate Conserved(w: Window) {
    w.received == w.consumed + w.pending && Positive(w.received)
  }

  /** Each extension consumed has moved the end of the window by its length. */
  predicate EndAccounted(w: Window, duration: int) {
    w.endTime == w.appliedAt + duration + Total(w.consumed)
  }

  /** The wait ended because of a termination, or with every extension received by then consumed and
      served in full. */
  predicate Served(w: Window, duration: int) {
    && w.heard <= w.received
    && (w.early ==> w.terminated)
    && (!w.early ==> w.consumed == w.heard && w.endedAt >= w.appliedAt + duration + Total(w.heard))
  }

  /** The account of the window in each phase. The outer loop makes at most one pass for each
      extension, and two more. */
  predicate WindowInv(w: Window, duration: int, p: Pc, now: int) {
    && Conserved(w)
    && (match PhaseOf(p)
        case Opening => w.consumed == [] && w.passes == 0 && !w.ended
        case Open =>
          && !w.ended && EndAccounted(w, duration)
          && w.passes <= |w.consumed| + 1
          && (p == At(AuditApplied) ==> w.passes == 0)
        case Ending | Reverting =>
          && w.passes <= |w.consumed| + 2 && w.ended && w.endedAt <= now
          && EndAccounted(w, duration) && Served(w, duration)
        case Over =>
          && w.passes <= |w.consumed| + 2
          && (w.ended ==> EndAccounted(w, duration) && Served(w, duration)))
  }

  predicate HasReturned(p: Pc) {
    p == Closed(Reverted) || p == Closed(Cancelled)
  }

  /** What the revert reported as the active time, and the result, against the window. */
  predicate Reported(r: Run) {
    && (PhaseOf(r.pc) == Reverting ==> r.activeSeconds >= r.window.endedAt - r.window.appliedAt)
    && (HasReturned(r.pc) ==>
          && r.window.ended && r.activeSeconds >= r.window.endedAt - r.window.appliedAt
          && r.window.early == (r.pc == Closed(Cancelled)))
  }

  predicate TimeInv(r: Run, now: int) {
    WindowInv(r.window, r.duration, r.pc, now) && Reported(r)
  }

  /** Where the loop can leave the run. */
  predicate WaitStage(s: Stage) {
    s == RecordExtension || s == Waiting || s == AuditTerminated || s == CheckSafety
  }

  lemma TotalSnoc(es: seq<Extension>, e: Extension)
    ensures Total(es + [e]) == Total(es) + e.seconds
  {
    assert (es + [e])[..|es|] == es;
  }

  lemma EndWaitKeepsWindow(w: Window, duration: int, now: int)
    requires Conserved(w) && EndAccounted(w, duration) && w.passes <= |w.consumed| + 2
    requires w.terminated || (w.pending == [] && w.endTime <= now)
    ensures var (s, w') := EndWait(w, now); WindowInv(w', duration, At(s), now) && WaitStage(s)
  {
    if w.pending == [] { assert w.consumed + w.pending == w.consumed; }
  }

  lemma DrainKeepsWindow(w: Window, duration: int, now: int)
    requires Conserved(w) && EndAccounted(w, duration) && !w.ended && w.passes <= |w.consumed| + 2
    requires w.pending == [] && now < w.endTime ==> w.passes <= |w.consumed| + 1
    ensures var (s, w') := Drain(w, now); WindowInv(w', duration, At(s), now) && WaitStage(s)
  {
    if w.pending != [] {
      TotalSnoc(w.consumed, w.pending[0]);
      assert w.consumed + w.pending == (w.consumed + [w.pending[0]]) + w.pending[1..];
    } else if w.endTime <= now {
      EndWaitKeepsWindow(w, duration, now);
    }
  }

  lemma LoopHeadKeepsWindow(w: Window, duration: int, now: int)
    requires Conserved(w) && EndAccounted(w, duration) && !w.ended && w.passes <= |w.consumed| + 1
    requires Wakes(w, now) || w.passes <= |w.consumed|
    ensures var (s, w') := LoopHead(w, now); WindowInv(w', duration, At(s), now) && WaitStage(s)
  {
    if w.terminated {
      EndWaitKeepsWindow(w, duration, now);
    } else {
      DrainKeepsWindow(w.(passes := w.passes + 1), duration, now);
    }
  }

  lemma WaitStepKeepsTime(r: Run, now: int, y: Reply)
    requires TimeInv(r, now) && PhaseOf(r.pc) == Open
    ensures TimeInv(WaitStep(r, now, y), now)
  {
    hide EndWait;
    hide Drain;
    hide LoopHead;
    hide Total;
    match r.pc.stage
    case AuditApplied => if y.ok { LoopHeadKeepsWindow(r.window, r.duration, now); }
    case AuditExtension => if y.ok { DrainKeepsWindow(r.window, r.duration, now); }
    case Waiting => if Wakes(r.window, now) { LoopHeadKeepsWindow(r.window, r.duration, now); }
    case RecordExtension =>
  }

  /** The later window has lost no extension of the earlier one: they only move, first received first,
      from pending to consumed, and the end of the window never moves back. */
  predicate Advances(w: Window, w': Window) {
    w'.received == w.received && w.consumed <= w'.consumed <= w.received && w.endTime <= w'.endTime
  }

  lemma DrainAdvances(w: Window, now: int)
    requires Conserved(w)
    ensures Advances(w, Drain(w, now).1)
  {
    if w.pending != [] {
      assert w.received[|w.consumed|] == w.pending[0];
    }
  }

  lemma WaitStepAdvances(r: Run, now: int, y: Reply)
    requires PhaseOf(r.pc) == Open && Conserved(r.window)
    ensures Advances(r.window, WaitStep(r, now, y).window)
  {
    hide Drain;
    DrainAdvances(r.window, now);
    DrainAdvances(r.window.(passes := r.window.passes + 1), now);
  }

  /** From the start of the wait on, every step of the run only moves the window forward in this sense. */
  lemma StepAdvances(r: Run, d: Device, m: Metrics, now: int, y: Reply)
    requires PhaseOf(r.pc) != Opening && Conserved(r.window)
    ensures Advances(r.window, Step(r, d, m, now, y).0.window)
  {
    hide Push;
    hide WaitStep;
    if PhaseOf(r.pc) == Open { WaitStepAdvances(r, now, y); }
    assert r.window.consumed <= r.window.received;
  }

  /** Where an answer leads before the window opens. */
  function AfterOpening(s: Stage, y: Reply): Pc {
    match s
    case AuditInitiated => if y.ok then At(Capture) else Closed(Crashed(s))
    case Capture => if y.ok then At(StoreBackup) else Closed(Crashed(s))
    case StoreBackup => if y.ok then At(Apply) else Closed(Crashed(s))
    case Apply => At(if |y.lost| < MAX_ATTEMPTS then MarkOverrideActive else AuditApplyFailed)
    case AuditApplyFailed => Closed(Rejected(s))
    case _ => if y.ok then At(AuditApplied) else Closed(Crashed(s))
  }

  lemma OpeningStepGoes(r: Run, d: Device, m: Metrics, now: int, y: Reply)
    requires PhaseOf(r.pc) == Opening
    ensures OpeningStep(r, d, m, now, y).0.pc == AfterOpening(r.pc.stage, y)
  {
    PushCollapses(d, Update(r.payload), y.lost);
    hide Push;
    hide Landed;
  }

  lemma OpeningFrame(r: Run, d: Device, m: Metrics, now: int, y: Reply)
    requires r.pc.At?
    ensures var r' := OpeningStep(r, d, m, now, y).0;
            && r'.payload == r.payload && r'.duration == r.duration
            && r'.reverted == r.reverted && r'.failureRecorded == r.failureRecorded
  {
    hide Push;
  }

  lemma OpeningWindow(r: Run, d: Device, m: Metrics, now: int, y: Reply)
    requires PhaseOf(r.pc) == Opening
    ensures OpeningStep(r, d, m, now, y).0.window ==
            if r.pc == At(MarkOverrideActive) then r.window.(appliedAt := now, endTime := now + r.duration)
            else r.window
  {
    hide Push;
  }

  lemma OpeningStepKeepsTime(r: Run, d: Device, m: Metrics, now: int, y: Reply)
    requires TimeInv(r, now) && PhaseOf(r.pc) == Opening
    ensures TimeInv(OpeningStep(r, d, m, now, y).0, now)
  {
    OpeningStepGoes(r, d, m, now, y);
    OpeningFrame(r, d, m, now, y);
    OpeningWindow(r, d, m, now, y);
    hide OpeningStep;
    hide Served;
    hide Positive;
  }

  /** Where an answer leads between the wait and the revert. */
  function AfterSafety(s: Stage, y: Reply): Pc {
    match s
    case AuditTerminated => if y.ok then At(CheckSafety) else Closed(Crashed(s))
    case CheckSafety =>
      if !y.ok then Closed(Crashed(s)) else if y.passes then At(FetchIntent) else At(RecordUnsafe)
    case RecordUnsafe => if y.ok then At(StatusUnsafe) else At(AuditUnsafe)
    case StatusUnsafe => At(AuditUnsafe)
    case AuditUnsafe => Closed(if y.ok then Rejected(s) else Crashed(s))
    case FetchIntent => if y.ok then At(Render) else Closed(Crashed(s))
    case _ => if y.ok then At(Revert) else Closed(Crashed(s))
  }

  /** And from the revert on. */
  function AfterRevert(s: Stage, early: bool, y: Reply): Pc {
    match s
    case Revert => At(if |y.lost| < MAX_ATTEMPTS then MarkFinal else RecordFailure)
    case RecordFailure => if y.ok then At(StatusFailed) else At(AuditRevertFailed)
    case StatusFailed => At(AuditRevertFailed)
    case AuditRevertFailed => Closed(Rejected(s))
    case MarkFinal => At(AuditFinal)
    case _ => Closed(if early then Cancelled else Reverted)
  }

  lemma SafetyStepGoes(r: Run, m: Metrics, now: int, y: Reply)
    requires PhaseOf(r.pc) == Ending
    ensures SafetyStep(r, m, now, y).0.pc == AfterSafety(r.pc.stage, y)
  {
  }

  /** After the wait the window stays as it is. */
  lemma SafetyStepFrame(r: Run, m: Metrics, now: int, y: Reply)
    requires r.pc.At?
    ensures var r' := SafetyStep(r, m, now, y).0;
            r'.window == r.window && r'.duration == r.duration && r'.payload == r.payload
  {
    SafetyStepDuration(r, m, now, y);
    SafetyStepPayload(r, m, now, y);
    SafetyStepWindow(r, m, now, y);
    hide SafetyStep;
  }

  lemma SafetyStepWindow(r: Run, m: Metrics, now: int, y: Reply)
    requires r.pc.At?
    ensures SafetyStep(r, m, now, y).0.window == r.window
  {
    hide CountFailure;
  }

  lemma SafetyStepDuration(r: Run, m: Metrics, now: int, y: Reply)
    requires r.pc.At?
    ensures SafetyStep(r, m, now, y).0.duration == r.duration
  {
    hide CountFailure;
  }

  lemma SafetyStepPayload(r: Run, m: Metrics, now: int, y: Reply)
    requires r.pc.At?
    ensures SafetyStep(r, m, now, y).0.payload == r.payload
  {
    hide CountFailure;
  }

  /** The active time is reported as it is when the intent has been rendered. */
  lemma RenderReports(r: Run, m: Metrics, now: int, y: Reply)
    requires r.pc == At(Render)
    ensures var r' := SafetyStep(r, m, now, y).0;
            r'.activeSeconds == now - r.window.appliedAt && r'.intended == y.doc
  {
  }

  lemma RevertStepGoes(r: Run, d: Device, m: Metrics, y: Reply)
    requires PhaseOf(r.pc) == Reverting
    ensures RevertStep(r, d, m, y).0.pc == AfterRevert(r.pc.stage, r.window.early, y)
  {
    PushCollapses(d, Update(r.intended), y.lost);
    hide Push;
    hide Landed;
  }

  lemma RevertStepFrame(r: Run, d: Device, m: Metrics, y: Reply)
    requires r.pc.At?
    ensures var r' := RevertStep(r, d, m, y).0;
            && r'.window == r.window && r'.duration == r.duration && r'.payload == r.payload
            && r'.activeSeconds == r.activeSeconds
  {
    hide Push;
  }

  lemma AfterSafetyPhase(s: Stage, y: Reply)
    requires PhaseOf(At(s)) == Ending
    ensures var p := AfterSafety(s, y);
            && (PhaseOf(p) == Ending || PhaseOf(p) == Reverting || PhaseOf(p) == Over) && !HasReturned(p)
            && (PhaseOf(p) == Reverting ==> s == Render)
  {
  }

  lemma AfterRevertPhase(s: Stage, early: bool, y: Reply)
    requires PhaseOf(At(s)) == Reverting
    ensures var p := AfterRevert(s, early, y);
            && (PhaseOf(p) == Reverting || PhaseOf(p) == Over)
            && (HasReturned(p) ==> early == (p == Closed(Cancelled)) && PhaseOf(p) == Over)
  {
  }

  lemma SafetyStepKeepsTime(r: Run, m: Metrics, now: int, y: Reply)
    requires TimeInv(r, now) && PhaseOf(r.pc) == Ending
    ensures TimeInv(SafetyStep(r, m, now, y).0, now)
  {
    SafetyStepGoes(r, m, now, y);
    SafetyStepFrame(r, m, now, y);
    if r.pc == At(Render) { RenderReports(r, m, now, y); }
    AfterSafetyPhase(r.pc.stage, y);
    hide SafetyStep;
    hide AfterSafety;
    hide PhaseOf;
    hide HasReturned;
    hide Conserved;
    hide EndAccounted;
    hide Served;
  }

  lemma RevertStepKeepsTime(r: Run, d: Device, m: Metrics, now: int, y: Reply)
    requires TimeInv(r, now) && PhaseOf(r.pc) == Reverting
    ensures TimeInv(RevertStep(r, d, m, y).0, now)
  {
    RevertStepGoes(r, d, m, y);
    RevertStepFrame(r, d, m, y);
    AfterRevertPhase(r.pc.stage, r.window.early, y);
    hide RevertStep;
    hide AfterRevert;
    hide PhaseOf;
    hide HasReturned;
    hide Conserved;
    hide EndAccounted;
    hide Served;
  }

  /** Every activity, timer firing or blocked wait keeps the account of the window. */
  lemma StepKeepsTime(r: Run, d: Device, m: Metrics, now: int, y: Reply)
    requires TimeInv(r, now)
    ensures TimeInv(Step(r, d, m, now, y).0, now)
  {
    hide TimeInv;
    hide OpeningStep;
    hide WaitStep;
    hide SafetyStep;
    hide RevertStep;
    match PhaseOf(r.pc)
    case Opening => OpeningStepKeepsTime(r, d, m, now, y);
    case Open => WaitStepKeepsTime(r, now, y);
    case Ending => SafetyStepKeepsTime(r, m, now, y);
    case Reverting => RevertStepKeepsTime(r, d, m, now, y);
    case Over =>
  }

  /** So does every signal, at any point of the run. */
  lemma HandleKeepsTime(r: Run, s: Signal, now: int)
    requires TimeInv(r, now)
    ensures TimeInv(Handle(r, s), now)
  {
    if s.ExtendWindow? && s.seconds > 0 {
      var e := Extension(s.seconds, s.reason);
      assert (r.window.consumed + r.window.pending) + [e] == r.window.consumed + (r.window.pending + [e]);
    }
  }

  // --- the device and the gauge -------------------------------------------------------------

  predicate OnOverride(r: Run, base: Device, d: Device) {
    d.config == Merge(base.config, r.payload)
  }

  predicate OnIntent(r: Run, base: Device, d: Device) {
    d.config == Merge(Merge(base.config, r.payload), r.intended)
  }

  predicate Flags(r: Run, applied: bool, reverted: bool, failureRecorded: bool) {
    r.applied == applied && r.reverted == reverted && r.failureRecorded == failureRecorded
  }

  /** What the safety check must have said for the run to be where it is. */
  function SafetyOf(p: Pc): Option<bool> {
    match p
    case At(RecordUnsafe) | At(StatusUnsafe) | At(AuditUnsafe) => Some(false)
    case Closed(Rejected(AuditUnsafe)) | Closed(Crashed(AuditUnsafe)) => Some(false)
    case At(s) =>
      if s in {FetchIntent, Render, Revert, RecordFailure, StatusFailed, AuditRevertFailed, MarkFinal, AuditFinal}
      then Some(true) else None
    case Closed(Reverted) | Closed(Cancelled) | Closed(Rejected(AuditRevertFailed)) => Some(true)
    case Closed(Crashed(FetchIntent)) | Closed(Crashed(Render)) => Some(true)
    case _ => None
  }

  /** What is on the device, and which of the three outcomes the metrics have seen. The override
      never changes the device status. */
  predicate DeviceInv(r: Run, base: Device, d: Device) {
    d.status == base.status && (SafetyOf(r.pc).Some? ==> r.safe == SafetyOf(r.pc).value) &&
    match r.pc
    case Closed(o) => Left(r, o, base, d)
    case At(s) =>
      match s
      case AuditInitiated | Capture | StoreBackup | Apply => d == base && Flags(r, false, false, false)
      case AuditApplyFailed => (d == base || OnOverride(r, base, d)) && Flags(r, false, false, false)
      case StatusUnsafe => OnOverride(r, base, d) && Flags(r, true, false, true)
      case AuditUnsafe => OnOverride(r, base, d) && r.applied && !r.reverted
      case RecordFailure =>
        (OnOverride(r, base, d) || OnIntent(r, base, d)) && Flags(r, true, false, false)
      case StatusFailed =>
        (OnOverride(r, base, d) || OnIntent(r, base, d)) && Flags(r, true, false, true)
      case AuditRevertFailed =>
        (OnOverride(r, base, d) || OnIntent(r, base, d)) && r.applied && !r.reverted
      case MarkFinal | AuditFinal => OnIntent(r, base, d) && Flags(r, true, true, false)
      case _ => OnOverride(r, base, d) && Flags(r, true, false, false)
  }

  /** Stages whose exception leaves the run after the override is on the device and before the revert. */
  predicate Unguarded(s: Stage) {
    match s
    case MarkOverrideActive | AuditApplied | RecordExtension | AuditExtension | AuditTerminated
      | CheckSafety | FetchIntent | Render => true
    case _ => false
  }

  /** What a closed run leaves behind. */
  predicate Left(r: Run, o: Outcome, base: Device, d: Device) {
    match o
    case Reverted | Cancelled => OnIntent(r, base, d) && Flags(r, true, true, false) && r.safe
    case Refused => d == base && Flags(r, false, false, false)
    case Rejected(AuditApplyFailed) => (d == base || OnOverride(r, base, d)) && Flags(r, false, false, false)
    case Rejected(AuditUnsafe) | Crashed(AuditUnsafe) =>
      OnOverride(r, base, d) && r.applied && !r.reverted && !r.safe
    case Rejected(s) =>
      s == AuditRevertFailed && (OnOverride(r, base, d) || OnIntent(r, base, d)) && r.applied && !r.reverted
    case Crashed(s) =>
      if Unguarded(s) then OnOverride(r, base, d) && Flags(r, true, false, false)
      else d == base && Flags(r, false, false, false)
  }

  lemma OpeningStepKeepsDevice(r: Run, base: Device, d: Device, m: Metrics, now: int, y: Reply)
    requires DeviceInv(r, base, d) && PhaseOf(r.pc) == Opening
    ensures var (r', d', _) := OpeningStep(r, d, m, now, y); DeviceInv(r', base, d')
  {
    hide Merge;
    hide Push;
    hide Landed;
    if r.pc == At(Apply) { PushCollapses(d, Update(r.payload), y.lost); }
  }

  lemma WaitStepKeepsDevice(r: Run, base: Device, d: Device, now: int, y: Reply)
    requires DeviceInv(r, base, d) && PhaseOf(r.pc) == Open
    ensures DeviceInv(WaitStep(r, now, y), base, d)
  {
    hide Merge;
  }

  lemma SafetyStepKeepsDevice(r: Run, base: Device, d: Device, m: Metrics, now: int, y: Reply)
    requires DeviceInv(r, base, d) && PhaseOf(r.pc) == Ending
    ensures DeviceInv(SafetyStep(r, m, now, y).0, base, d)
  {
    hide Merge;
  }

  lemma RevertStepKeepsDevice(r: Run, base: Device, d: Device, m: Metrics, y: Reply)
    requires DeviceInv(r, base, d) && PhaseOf(r.pc) == Reverting
    ensures var (r', d', _) := RevertStep(r, d, m, y); DeviceInv(r', base, d')
  {
    hide Merge;
    hide Push;
    hide Landed;
    if r.pc == At(Revert) { PushCollapses(d, Update(r.intended), y.lost); }
  }

  lemma StepKeepsDevice(r: Run, base: Device, d: Device, m: Metrics, now: int, y: Reply)
    requires DeviceInv(r, base, d)
    ensures var (r', d', _) := Step(r, d, m, now, y); DeviceInv(r', base, d')
  {
    hide DeviceInv;
    hide OpeningStep;
    hide WaitStep;
    hide SafetyStep;
    hide RevertStep;
    match PhaseOf(r.pc)
    case Opening => OpeningStepKeepsDevice(r, base, d, m, now, y);
    case Open => WaitStepKeepsDevice(r, base, d, now, y);
    case Ending => SafetyStepKeepsDevice(r, base, d, m, now, y);
    case Reverting => RevertStepKeepsDevice(r, base, d, m, y);
    case Over =>
  }

  /** The run is counted in the active gauge. */
  predicate Counted(r: Run) {
    r.applied && !r.reverted && !r.failureRecorded
  }

  function One(b: bool): nat {
    if b then 1 else 0
  }

  /** A step moves the metrics exactly as it moves the run between the three outcomes. */
  lemma StepCounts(r: Run, base: Device, d: Device, m: Metrics, now: int, y: Reply)
    requires DeviceInv(r, base, d)
    ensures var (r', _, m') := Step(r, d, m, now, y);
            && m'.active - One(Counted(r')) == m.active - One(Counted(r))
            && m'.applies - One(r'.applied) == m.applies - One(r.applied)
            && m'.reverts - One(r'.reverted) == m.reverts - One(r.reverted)
            && m'.failures - One(r'.failureRecorded) == m.failures - One(r.failureRecorded)
            && !(r'.reverted && r'.failureRecorded)
            && (r'.reverted || r'.failureRecorded ==> r'.applied)
  {
    hide Merge;
    hide Push;
    hide LoopHead;
    hide Drain;
  }

  /** A closed run is still counted exactly when an unguarded activity ended it, or when the attempt
      to record its failed revert was itself lost. */
  lemma ClosedCountedIff(r: Run, o: Outcome, base: Device, d: Device)
    requires Left(r, o, base, d)
    ensures Counted(r) <==>
              || (o.Crashed? && Unguarded(o.at))
              || (o in {Rejected(AuditUnsafe), Crashed(AuditUnsafe), Rejected(AuditRevertFailed)}
                  && !r.failureRecorded)
  {
    hide Merge;
  }

  /** The revert is a merge: on a path the intent does not decide, the override stays in place. */
  lemma RevertLeavesResidue(r: Run, base: Device, d: Device, p: Path)
    requires OnIntent(r, base, d)
    ensures Honours(d.config, r.intended)
    ensures Untouched(r.intended, p) ==> Lookup(d.config, p) == Lookup(Merge(base.config, r.payload), p)
  {
    MergeHonours(Merge(base.config, r.payload), r.intended);
    MergeLookup(Merge(base.config, r.payload), r.intended, p);
  }

  /** When the revert leaves nothing behind: the device is as it would be had the override never been
      applied exactly when the override had changed no path that the intent does not decide, and it is
      on the bare intent exactly when, with the override, it had no path outside the intent. */
  lemma RevertErasesIff(r: Run, base: Device, d: Device)
    requires OnIntent(r, base, d)
    ensures d.config == Merge(base.config, r.intended)
            <==> AgreeOutside(Merge(base.config, r.payload), base.config, r.intended)
    ensures d.config == r.intended <==> !AddsPath(r.intended, Merge(base.config, r.payload))
  {
    ErasesIff(base.config, r.payload, r.intended);
    UpdateLeavesPayloadIff(Merge(base.config, r.payload), r.intended);
  }
}
