/** Which answers and signals lead an override run where: its point and its outcome, read off the answers
    to its activities, apart from the step machine. The polls of its wait are not answers. */
module OverrideAnswers {
  import opened Json
  import opened Devices
  import opened OperationalOverride

  // --- answers ------------------------------------------------------------------------------

  /** Initiated, captured, stored. */
  predicate Prepared(ys: seq<Answer>) {
    Ok(ys, 0) && Ok(ys, 1) && Ok(ys, 2)
  }

  predicate Applied(ys: seq<Answer>) {
    Prepared(ys) && Acked(ys, 3)
  }

  predicate ApplyLost(ys: seq<Answer>) {
    Prepared(ys) && |ys| > 3 && !Acked(ys, 3)
  }

  predicate Marked(ys: seq<Answer>) {
    Applied(ys) && Ok(ys, 4)
  }

  /** The window was opened, and `k` extensions have been recorded and audited. */
  predicate Held(k: nat, ys: seq<Answer>) {
    Marked(ys) && Ok(ys, 5) && forall i | 6 <= i < 6 + 2 * k :: Ok(ys, i)
  }

  /** The safety check is the answer after the window, its `k` extensions, and the audit of an early
      termination. */
  function Check(k: nat, early: bool): nat {
    6 + 2 * k + One(early)
  }

  predicate Waited(k: nat, early: bool, ys: seq<Answer>) {
    Held(k, ys) && (early ==> Ok(ys, 6 + 2 * k))
  }

  predicate Safe(k: nat, early: bool, ys: seq<Answer>) {
    Waited(k, early, ys) && Ok(ys, Check(k, early)) && ys[Check(k, early)].reply.passes
  }

  predicate Unsafe(k: nat, early: bool, ys: seq<Answer>) {
    Waited(k, early, ys) && Ok(ys, Check(k, early)) && !ys[Check(k, early)].reply.passes
  }

  predicate Rendered(k: nat, early: bool, ys: seq<Answer>) {
    Safe(k, early, ys) && Ok(ys, Check(k, early) + 1) && Ok(ys, Check(k, early) + 2)
  }

  predicate RevertDone(k: nat, early: bool, ys: seq<Answer>) {
    Rendered(k, early, ys) && Acked(ys, Check(k, early) + 3)
  }

  predicate RevertLost(k: nat, early: bool, ys: seq<Answer>) {
    Rendered(k, early, ys) && |ys| > Check(k, early) + 3 && !Acked(ys, Check(k, early) + 3)
  }

  /** A run whose activities were answered by `ys`, having consumed `k` extensions and left its wait, if
      it has, `early` or not, is at this stage. */
  predicate ToldAt(s: Stage, k: nat, early: bool, ys: seq<Answer>) {
    var n, c := |ys|, Check(k, early);
    match s
    case AuditInitiated => k == 0 && n == 0
    case Capture => k == 0 && n == 1 && Ok(ys, 0)
    case StoreBackup => k == 0 && n == 2 && Ok(ys, 0) && Ok(ys, 1)
    case Apply => k == 0 && n == 3 && Prepared(ys)
    case AuditApplyFailed => k == 0 && n == 4 && ApplyLost(ys)
    case MarkOverrideActive => k == 0 && n == 4 && Applied(ys)
    case AuditApplied => k == 0 && n == 5 && Marked(ys)
    case RecordExtension => k > 0 && n == 4 + 2 * k && Held(k - 1, ys)
    case AuditExtension => k > 0 && n == 5 + 2 * k && Held(k - 1, ys) && Ok(ys, 4 + 2 * k)
    case Waiting => n == 6 + 2 * k && Held(k, ys)
    case AuditTerminated => early && n == 6 + 2 * k && Held(k, ys)
    case CheckSafety => n == c && Waited(k, early, ys)
    case RecordUnsafe => n == c + 1 && Unsafe(k, early, ys)
    case StatusUnsafe => n == c + 2 && Unsafe(k, early, ys) && Ok(ys, c + 1)
    case AuditUnsafe => Unsafe(k, early, ys) && n == if Ok(ys, c + 1) then c + 3 else c + 2
    case FetchIntent => n == c + 1 && Safe(k, early, ys)
    case Render => n == c + 2 && Safe(k, early, ys) && Ok(ys, c + 1)
    case Revert => n == c + 3 && Rendered(k, early, ys)
    case RecordFailure => n == c + 4 && RevertLost(k, early, ys)
    case StatusFailed => n == c + 5 && RevertLost(k, early, ys) && Ok(ys, c + 4)
    case AuditRevertFailed => RevertLost(k, early, ys) && n == if Ok(ys, c + 4) then c + 6 else c + 5
    case MarkFinal => n == c + 4 && RevertDone(k, early, ys)
    case AuditFinal => n == c + 5 && RevertDone(k, early, ys)
  }

  /** The activities whose failure leaves the run. */
  predicate Escapes(s: Stage) {
    Unguarded(s) || s in {AuditInitiated, Capture, StoreBackup, AuditUnsafe}
  }

  /** A run started for `duration` whose activities were answered by `ys` has closed with this outcome. */
  predicate ToldClosed(o: Outcome, duration: int, k: nat, early: bool, ys: seq<Answer>) {
    var n, c := |ys|, Check(k, early);
    match o
    case Refused => n == 0 && duration <= 0
    case Reverted => duration > 0 && !early && n == c + 6 && RevertDone(k, early, ys)
    case Cancelled => duration > 0 && early && n == c + 6 && RevertDone(k, early, ys)
    case Rejected(AuditApplyFailed) => duration > 0 && n == 5 && ApplyLost(ys)
    case Rejected(AuditUnsafe) =>
      duration > 0 && Unsafe(k, early, ys) && n == (if Ok(ys, c + 1) then c + 4 else c + 3) && Ok(ys, n - 1)
    case Rejected(AuditRevertFailed) =>
      duration > 0 && RevertLost(k, early, ys) && n == if Ok(ys, c + 4) then c + 7 else c + 6
    case Rejected(_) => false
    case Crashed(s) =>
      duration > 0 && Escapes(s) && n > 0 && !Ok(ys, n - 1) && ToldAt(s, k, early, ys[..n - 1])
  }

  predicate ToldPc(p: Pc, duration: int, k: nat, early: bool, ys: seq<Answer>) {
    match p
    case At(s) => duration > 0 && ToldAt(s, k, early, ys)
    case Closed(o) => ToldClosed(o, duration, k, early, ys)
  }

  /** Which of the three outcomes the metrics have seen. */
  predicate Flagged(
      applied: bool, reverted: bool, failureRecorded: bool, k: nat, early: bool, ys: seq<Answer>) {
    var c := Check(k, early);
    && applied == Applied(ys) && reverted == RevertDone(k, early, ys)
    && failureRecorded == ((Unsafe(k, early, ys) && Ok(ys, c + 1)) || (RevertLost(k, early, ys) && Ok(ys, c + 4)))
  }

  /** When the override was marked active, the intent, and the active time; and that nothing was checked
      before the wait had ended. */
  predicate Timed(r: Run, k: nat, early: bool, ys: seq<Answer>, now: int) {
    var n, c := |ys|, Check(k, early);
    && InOrder(ys, now)
    && (n > 4 && Marked(ys) ==> r.window.appliedAt == ys[4].at)
    && (r.window.ended ==> r.window.endedAt <= now)
    && (r.pc in {At(AuditTerminated), At(CheckSafety)} ==> r.window.ended)
    && (n > c ==> Waited(k, early, ys) && r.window.ended && r.window.endedAt <= ys[c].at)
    && (n > c + 2 && Rendered(k, early, ys) ==>
          r.intended == ys[c + 2].reply.doc && r.activeSeconds == ys[c + 2].at - ys[4].at)
  }

  /** What the run remembers of its answers. */
  predicate Remembers(r: Run, k: nat, early: bool, ys: seq<Answer>, now: int) {
    Flagged(r.applied, r.reverted, r.failureRecorded, k, early, ys) && Timed(r, k, early, ys, now)
  }

  // --- signals ------------------------------------------------------------------------------

  /** The extensions that signals bring, in order. */
  function Extensions(gs: seq<Signal>): seq<Extension> {
    if gs == [] then []
    else
      var g := gs[|gs| - 1];
      Extensions(gs[..|gs| - 1])
      + if g.ExtendWindow? && g.seconds > 0 then [Extension(g.seconds, g.reason)] else []
  }

  /** The last termination among the signals. */
  function Termination(gs: seq<Signal>): Option<string> {
    if gs == [] then None
    else
      var g := gs[|gs| - 1];
      if g.TerminateEarly? then Some(g.reason) else Termination(gs[..|gs| - 1])
  }

  /** The window has received what the signals sent. */
  predicate Received(w: Window, gs: seq<Signal>) {
    && w.received == Extensions(gs)
    && w.terminated == Termination(gs).Some?
    && w.terminateReason == match Termination(gs) case Some(reason) => reason case None => ""
  }

  lemma SignalReceived(w: Window, gs: seq<Signal>, g: Signal)
    requires Received(w, gs)
    ensures Received(HandleSignal(w, g), gs + [g])
  {
    assert (gs + [g])[..|gs|] == gs;
  }

  // --- a run, by its answers ------------------------------------------------------------

  /** The answers and signals account for run `r`, started with this override for this duration. */
  predicate Told(r: Run, payload: Json, duration: int, ys: seq<Answer>, gs: seq<Signal>, now: int) {
    var k, early := |r.window.consumed|, r.window.early;
    && r.payload == payload && r.duration == duration
    && ToldPc(r.pc, duration, k, early, ys) && Remembers(r, k, early, ys, now)
    && Received(r.window, gs)
  }

  predicate IsTimer(p: Pc) {
    p == At(Waiting)
  }

  /** What one more answer leaves as it was. */
  lemma OneMoreStays(k: nat, early: bool, ys: seq<Answer>, a: Answer)
    ensures var zs, c := ys + [a], Check(k, early);
            && (|ys| > 3 ==> Applied(zs) == Applied(ys) && ApplyLost(zs) == ApplyLost(ys))
            && (|ys| > 4 ==> Marked(zs) == Marked(ys))
            && (|ys| >= 6 + 2 * k ==> Held(k, zs) == Held(k, ys))
            && (|ys| >= c ==> Waited(k, early, zs) == Waited(k, early, ys))
            && (|ys| > c ==> Safe(k, early, zs) == Safe(k, early, ys) && Unsafe(k, early, zs) == Unsafe(k, early, ys))
            && (|ys| > c + 2 ==> Rendered(k, early, zs) == Rendered(k, early, ys))
            && (|ys| > c + 3 ==> RevertDone(k, early, zs) == RevertDone(k, early, ys)
                                 && RevertLost(k, early, zs) == RevertLost(k, early, ys))
  {
    OneMoreAnswer(ys, a);
    hide Ok;
    hide Acked;
  }

  /** What cannot have been answered yet. */
  lemma NotYet(k: nat, early: bool, ys: seq<Answer>)
    ensures var c := Check(k, early);
            && (|ys| <= 3 ==> !Applied(ys))
            && (|ys| <= 4 ==> !Marked(ys))
            && (|ys| <= c ==> !Safe(k, early, ys) && !Unsafe(k, early, ys))
            && (|ys| <= c + 2 ==> !Rendered(k, early, ys))
            && (|ys| <= c + 3 ==> !RevertDone(k, early, ys) && !RevertLost(k, early, ys))
  {
  }

  // --- where an answer leads ----------------------------------------------------------------

  lemma CrashTold(s: Stage, duration: int, k: nat, early: bool, ys: seq<Answer>, a: Answer)
    requires ToldPc(At(s), duration, k, early, ys) && Escapes(s) && !a.reply.ok
    ensures ToldClosed(Crashed(s), duration, k, early, ys + [a])
  {
    hide ToldAt;
    hide Escapes;
    assert (ys + [a])[..|ys|] == ys;
  }

  lemma OpeningGoesOn(s: Stage, duration: int, early: bool, y: Reply, now: int, ys: seq<Answer>)
    requires PhaseOf(At(s)) == Opening && ToldPc(At(s), duration, 0, early, ys) && (y.ok || !Escapes(s))
    ensures ToldPc(AfterOpening(s, y), duration, 0, early, ys + [Answer(y, now)])
  {
    OneMoreAnswer(ys, Answer(y, now));
    hide Ok;
    hide Acked;
    hide Unsafe;
    hide RevertLost;
    hide RevertDone;
  }

  lemma OpeningTold(s: Stage, duration: int, k: nat, early: bool, y: Reply, now: int, ys: seq<Answer>)
    requires PhaseOf(At(s)) == Opening && ToldPc(At(s), duration, k, early, ys)
    ensures ToldPc(AfterOpening(s, y), duration, k, early, ys + [Answer(y, now)])
  {
    hide ToldClosed;
    if y.ok || !Escapes(s) {
      OpeningGoesOn(s, duration, early, y, now, ys);
    } else {
      CrashTold(s, duration, k, early, ys, Answer(y, now));
    }
  }

  lemma SafetyGoesOn(s: Stage, duration: int, k: nat, early: bool, y: Reply, now: int, ys: seq<Answer>)
    requires PhaseOf(At(s)) == Ending && ToldPc(At(s), duration, k, early, ys) && (y.ok || !Escapes(s))
    ensures ToldPc(AfterSafety(s, y), duration, k, early, ys + [Answer(y, now)])
  {
    OneMoreAnswer(ys, Answer(y, now));
    OneMoreStays(k, early, ys, Answer(y, now));
    hide Ok;
    hide Acked;
    hide Held;
    hide RevertLost;
    hide RevertDone;
  }

  lemma SafetyTold(s: Stage, duration: int, k: nat, early: bool, y: Reply, now: int, ys: seq<Answer>)
    requires PhaseOf(At(s)) == Ending && ToldPc(At(s), duration, k, early, ys)
    ensures ToldPc(AfterSafety(s, y), duration, k, early, ys + [Answer(y, now)])
  {
    hide ToldClosed;
    hide ToldAt;
    if y.ok || !Escapes(s) {
      SafetyGoesOn(s, duration, k, early, y, now, ys);
    } else {
      CrashTold(s, duration, k, early, ys, Answer(y, now));
    }
  }

  lemma RevertTold(s: Stage, duration: int, k: nat, early: bool, y: Reply, now: int, ys: seq<Answer>)
    requires PhaseOf(At(s)) == Reverting && ToldPc(At(s), duration, k, early, ys)
    ensures ToldPc(AfterRevert(s, early, y), duration, k, early, ys + [Answer(y, now)])
  {
    var a := Answer(y, now);
    OneMoreAnswer(ys, a);
    OneMoreStays(k, early, ys, a);
    hide Ok;
    hide Acked;
    hide Safe;
    hide Unsafe;
  }

  /** Where the loop leads, after all its extensions so far have been recorded and audited. */
  lemma LoopTold(w: Window, now: int, duration: int, ys: seq<Answer>)
    requires duration > 0 && Held(|w.consumed|, ys) && |ys| == 6 + 2 * |w.consumed|
    ensures var (s, w') := Drain(w, now); ToldPc(At(s), duration, |w'.consumed|, w'.early, ys)
    ensures var (s, w') := LoopHead(w, now); ToldPc(At(s), duration, |w'.consumed|, w'.early, ys)
  {
    hide Held;
  }

  lemma WaitTold(r: Run, duration: int, now: int, y: Reply, ys: seq<Answer>)
    requires PhaseOf(r.pc) == Open && !IsTimer(r.pc)
    requires ToldPc(r.pc, duration, |r.window.consumed|, r.window.early, ys)
    ensures var r' := WaitStep(r, now, y);
            ToldPc(r'.pc, duration, |r'.window.consumed|, r'.window.early, ys + [Answer(y, now)])
  {
    hide ToldAt;
    hide ToldClosed;
    hide Drain;
    hide LoopHead;
    var a := Answer(y, now);
    var k := |r.window.consumed|;
    if !y.ok {
      CrashTold(r.pc.stage, duration, k, r.window.early, ys, a);
    } else if r.pc == At(RecordExtension) {
      RecordTold(duration, k, r.window.early, ys, a);
    } else {
      HeldGrows(r.pc.stage, k, r.window.early, ys, a);
      LoopTold(r.window, now, duration, ys + [a]);
    }
    hide ToldPc;
  }

  lemma RecordTold(duration: int, k: nat, early: bool, ys: seq<Answer>, a: Answer)
    requires ToldPc(At(RecordExtension), duration, k, early, ys) && a.reply.ok
    ensures ToldPc(At(AuditExtension), duration, k, early, ys + [a])
  {
    OneMoreAnswer(ys, a);
    hide Acked;
  }

  lemma HeldGrows(s: Stage, k: nat, early: bool, ys: seq<Answer>, a: Answer)
    requires s in {AuditApplied, AuditExtension} && ToldAt(s, k, early, ys) && a.reply.ok
    ensures |ys + [a]| == 6 + 2 * k && Held(k, ys + [a])
  {
    OneMoreAnswer(ys, a);
    hide Acked;
  }

  // --- what a run remembers -----------------------------------------------------------------

  lemma OpeningFlags(r: Run, d: Device, m: Metrics, now: int, y: Reply)
    requires PhaseOf(r.pc) == Opening
    ensures OpeningStep(r, d, m, now, y).0.applied
            == (r.applied || (r.pc == At(Apply) && |y.lost| < MAX_ATTEMPTS))
  {
    PushCollapses(d, Update(r.payload), y.lost);
    hide Push;
    hide Landed;
  }

  /** The opening is done after five answers, and it applies the override with the fourth. */
  lemma OpeningPosition(s: Stage, k: nat, early: bool, ys: seq<Answer>)
    requires PhaseOf(At(s)) == Opening && ToldAt(s, k, early, ys)
    ensures k == 0 && |ys| <= 4
    ensures s == Apply <==> |ys| == 3
    ensures s == MarkOverrideActive ==> |ys| == 4
    ensures s == Apply ==> Prepared(ys)
    ensures |ys| == 4 && s != MarkOverrideActive ==> !Applied(ys)
  {
    hide Unsafe;
    hide RevertLost;
    hide RevertDone;
  }

  lemma OpeningRemembered(
      r: Run, k: nat, early: bool, d: Device, m: Metrics, now: int, y: Reply, ys: seq<Answer>)
    requires PhaseOf(r.pc) == Opening && ToldAt(r.pc.stage, k, early, ys) && Remembers(r, k, early, ys, now)
    ensures Remembers(OpeningStep(r, d, m, now, y).0, k, early, ys + [Answer(y, now)], now)
  {
    var a := Answer(y, now);
    OpeningStepGoes(r, d, m, now, y);
    OpeningFrame(r, d, m, now, y);
    OpeningWindow(r, d, m, now, y);
    OpeningFlags(r, d, m, now, y);
    OpeningPosition(r.pc.stage, k, early, ys);
    OneMoreAnswer(ys, a);
    OneMoreInOrder(ys, a, now);
    OneMoreStays(k, early, ys, a);
    NotYet(k, early, ys);
    NotYet(k, early, ys + [a]);
    hide OpeningStep;
    hide ToldAt;
    hide InOrder;
    hide Ok;
    hide Acked;
    hide Unsafe;
    hide RevertLost;
    hide RevertDone;
    hide Rendered;
    hide PhaseOf;
  }

  lemma SafetyFlags(r: Run, m: Metrics, now: int, y: Reply)
    requires PhaseOf(r.pc) == Ending
    ensures var r' := SafetyStep(r, m, now, y).0;
            && r'.applied == r.applied && r'.reverted == r.reverted
            && r'.failureRecorded == (r.failureRecorded || (r.pc == At(RecordUnsafe) && y.ok))
  {
  }

  /** The answer that each stage between the wait and the revert is waiting for. */
  lemma SafetyPosition(s: Stage, k: nat, early: bool, ys: seq<Answer>)
    requires PhaseOf(At(s)) == Ending && ToldAt(s, k, early, ys)
    ensures var n, c := |ys|, Check(k, early);
            && c <= n + 1 <= c + 4 && n >= 6
            && (s == AuditTerminated <==> n + 1 == c) && (s == CheckSafety <==> n == c)
            && (s == CheckSafety ==> Waited(k, early, ys))
            && (s == RecordUnsafe ==> n == c + 1 && Unsafe(k, early, ys))
            && (s == Render ==> n == c + 2 && Safe(k, early, ys))
            && (n == c + 1 && s != RecordUnsafe ==> !Unsafe(k, early, ys))
            && (n == c + 2 && s != Render ==> !Safe(k, early, ys))
            && (n == c + 3 ==> !Safe(k, early, ys))
  {
    hide Held;
  }

  lemma SafetyFlagged(r: Run, k: nat, early: bool, m: Metrics, now: int, y: Reply, ys: seq<Answer>)
    requires PhaseOf(r.pc) == Ending && ToldAt(r.pc.stage, k, early, ys)
    requires Flagged(r.applied, r.reverted, r.failureRecorded, k, early, ys)
    ensures var r' := SafetyStep(r, m, now, y).0;
            Flagged(r'.applied, r'.reverted, r'.failureRecorded, k, early, ys + [Answer(y, now)])
  {
    var a := Answer(y, now);
    SafetyFlags(r, m, now, y);
    SafetyPosition(r.pc.stage, k, early, ys);
    OneMoreAnswer(ys, a);
    OneMoreStays(k, early, ys, a);
    NotYet(k, early, ys);
    NotYet(k, early, ys + [a]);
    hide SafetyStep;
    hide ToldAt;
    hide Ok;
    hide Acked;
    hide Applied;
    hide Waited;
    hide PhaseOf;
  }

  lemma SafetyTimed(r: Run, k: nat, early: bool, m: Metrics, now: int, y: Reply, ys: seq<Answer>)
    requires PhaseOf(r.pc) == Ending && ToldAt(r.pc.stage, k, early, ys) && Timed(r, k, early, ys, now)
    ensures Timed(SafetyStep(r, m, now, y).0, k, early, ys + [Answer(y, now)], now)
  {
    var a := Answer(y, now);
    SafetyStepGoes(r, m, now, y);
    SafetyStepFrame(r, m, now, y);
    if r.pc == At(Render) { RenderReports(r, m, now, y); }
    SafetyPosition(r.pc.stage, k, early, ys);
    OneMoreAnswer(ys, a);
    OneMoreInOrder(ys, a, now);
    OneMoreStays(k, early, ys, a);
    NotYet(k, early, ys);
    NotYet(k, early, ys + [a]);
    hide SafetyStep;
    hide ToldAt;
    hide InOrder;
    hide Ok;
    hide Acked;
    hide Applied;
    hide Waited;
    hide PhaseOf;
  }

  lemma SafetyRemembered(r: Run, k: nat, early: bool, m: Metrics, now: int, y: Reply, ys: seq<Answer>)
    requires PhaseOf(r.pc) == Ending && ToldAt(r.pc.stage, k, early, ys) && Remembers(r, k, early, ys, now)
    ensures Remembers(SafetyStep(r, m, now, y).0, k, early, ys + [Answer(y, now)], now)
  {
    hide Flagged;
    hide Timed;
    hide SafetyStep;
    SafetyFlagged(r, k, early, m, now, y, ys);
    SafetyTimed(r, k, early, m, now, y, ys);
  }

  lemma RevertFlags(r: Run, d: Device, m: Metrics, y: Reply)
    requires PhaseOf(r.pc) == Reverting
    ensures var r' := RevertStep(r, d, m, y).0;
            && r'.applied == r.applied && r'.intended == r.intended
            && r'.reverted == (r.reverted || (r.pc == At(Revert) && |y.lost| < MAX_ATTEMPTS))
            && r'.failureRecorded == (r.failureRecorded || (r.pc == At(RecordFailure) && y.ok))
  {
    PushCollapses(d, Update(r.intended), y.lost);
    hide Push;
    hide Landed;
  }

  /** And from the revert on. */
  lemma RevertPosition(s: Stage, k: nat, early: bool, ys: seq<Answer>)
    requires PhaseOf(At(s)) == Reverting && ToldAt(s, k, early, ys)
    ensures var n, c := |ys|, Check(k, early);
            && n >= c + 3 && Rendered(k, early, ys)
            && (s == Revert <==> n == c + 3)
            && (s == RecordFailure ==> n == c + 4 && RevertLost(k, early, ys))
            && (n == c + 4 && s != RecordFailure ==> !RevertLost(k, early, ys))
  {
    hide Safe;
    hide Unsafe;
  }

  lemma RevertFlagged(
      r: Run, k: nat, early: bool, d: Device, m: Metrics, now: int, y: Reply, ys: seq<Answer>)
    requires PhaseOf(r.pc) == Reverting && ToldAt(r.pc.stage, k, early, ys)
    requires Flagged(r.applied, r.reverted, r.failureRecorded, k, early, ys)
    ensures var r' := RevertStep(r, d, m, y).0;
            Flagged(r'.applied, r'.reverted, r'.failureRecorded, k, early, ys + [Answer(y, now)])
  {
    var a := Answer(y, now);
    RevertFlags(r, d, m, y);
    RevertPosition(r.pc.stage, k, early, ys);
    OneMoreAnswer(ys, a);
    OneMoreStays(k, early, ys, a);
    NotYet(k, early, ys);
    hide RevertStep;
    hide ToldAt;
    hide Ok;
    hide Acked;
    hide Applied;
    hide Safe;
    hide Unsafe;
    hide PhaseOf;
  }

  lemma RevertTimed(
      r: Run, k: nat, early: bool, d: Device, m: Metrics, now: int, y: Reply, ys: seq<Answer>)
    requires PhaseOf(r.pc) == Reverting && ToldAt(r.pc.stage, k, early, ys) && Timed(r, k, early, ys, now)
    ensures Timed(RevertStep(r, d, m, y).0, k, early, ys + [Answer(y, now)], now)
  {
    var a := Answer(y, now);
    RevertStepGoes(r, d, m, y);
    RevertStepFrame(r, d, m, y);
    RevertFlags(r, d, m, y);
    RevertPosition(r.pc.stage, k, early, ys);
    OneMoreAnswer(ys, a);
    OneMoreInOrder(ys, a, now);
    OneMoreStays(k, early, ys, a);
    hide RevertStep;
    hide ToldAt;
    hide InOrder;
    hide Marked;
    hide Waited;
    hide Rendered;
    hide PhaseOf;
  }

  lemma RevertRemembered(
      r: Run, k: nat, early: bool, d: Device, m: Metrics, now: int, y: Reply, ys: seq<Answer>)
    requires PhaseOf(r.pc) == Reverting && ToldAt(r.pc.stage, k, early, ys) && Remembers(r, k, early, ys, now)
    ensures Remembers(RevertStep(r, d, m, y).0, k, early, ys + [Answer(y, now)], now)
  {
    hide Flagged;
    hide Timed;
    hide RevertStep;
    RevertFlagged(r, k, early, d, m, now, y, ys);
    RevertTimed(r, k, early, d, m, now, y, ys);
  }

  /** What the loop does to the window, whatever it finds. */
  predicate Loops(w: Window, s: Stage, w': Window, now: int) {
    && w'.received == w.received && w'.terminated == w.terminated && w'.terminateReason == w.terminateReason
    && w'.appliedAt == w.appliedAt && |w'.consumed| >= |w.consumed|
    && (w'.ended ==> w'.endedAt == now || (w.ended && w'.endedAt == w.endedAt))
    && (s in {AuditTerminated, CheckSafety} ==> w'.ended)
    && WaitStage(s)
  }

  lemma LoopLoops(w: Window, now: int)
    ensures var (s, w') := Drain(w, now); Loops(w, s, w', now)
    ensures var (s, w') := LoopHead(w, now); Loops(w, s, w', now)
  {
  }

  lemma WaitLoops(r: Run, now: int, y: Reply)
    requires PhaseOf(r.pc) == Open
    ensures var r' := WaitStep(r, now, y);
            && r' == r.(pc := r'.pc, window := r'.window)
            && ((r'.window == r.window && (r'.pc.At? ==> PhaseOf(r'.pc) == Open))
                || (r'.pc.At? && Loops(r.window, r'.pc.stage, r'.window, now)))
  {
    LoopLoops(r.window, now);
    hide Loops;
    hide Drain;
    hide LoopHead;
  }

  /** During the wait, nothing after it has been answered. */
  lemma WaitPosition(s: Stage, k: nat, early: bool, ys: seq<Answer>)
    requires PhaseOf(At(s)) == Open && ToldAt(s, k, early, ys)
    ensures 5 <= |ys| <= (if s == Waiting then 6 else 5) + 2 * k
  {
    hide Held;
    hide Unsafe;
    hide RevertLost;
  }

  /** A longer window, with the same answers, is remembered as well. */
  lemma WaitRemembered(r: Run, w: Window, s: Stage, k: nat, ys: seq<Answer>, now: int)
    requires Remembers(r, k, r.window.early, ys, now) && 5 <= |ys| <= 6 + 2 * k
    requires k == |r.window.consumed|
    requires Loops(r.window, s, w, now)
    ensures Remembers(r.(pc := At(s), window := w), |w.consumed|, w.early, ys, now)
  {
    NotYet(k, r.window.early, ys);
    NotYet(|w.consumed|, w.early, ys);
    hide InOrder;
    hide Ok;
    hide Applied;
    hide Marked;
    hide Unsafe;
    hide RevertLost;
    hide RevertDone;
    hide Rendered;
  }

  /** One more answer in the wait, before the run acts on it. */
  lemma WaitAnswered(r: Run, k: nat, early: bool, ys: seq<Answer>, a: Answer, now: int)
    requires Remembers(r, k, early, ys, now) && 5 <= |ys| <= 5 + 2 * k && a.at == now
    requires PhaseOf(r.pc) == Open
    ensures forall o :: Remembers(r.(pc := Closed(o)), k, early, ys + [a], now)
    ensures Remembers(r, k, early, ys + [a], now)
    ensures forall s | PhaseOf(At(s)) == Open :: Remembers(r.(pc := At(s)), k, early, ys + [a], now)
  {
    OneMoreAnswer(ys, a);
    OneMoreInOrder(ys, a, now);
    OneMoreStays(k, early, ys, a);
    NotYet(k, early, ys);
    NotYet(k, early, ys + [a]);
    hide InOrder;
    hide Ok;
    hide Acked;
    hide Applied;
    hide Marked;
    hide Unsafe;
    hide RevertLost;
    hide RevertDone;
    hide Rendered;
  }

  lemma WaitStepRemembered(r: Run, now: int, y: Reply, ys: seq<Answer>)
    requires PhaseOf(r.pc) == Open && !IsTimer(r.pc)
    requires ToldAt(r.pc.stage, |r.window.consumed|, r.window.early, ys)
    requires Remembers(r, |r.window.consumed|, r.window.early, ys, now)
    ensures var r' := WaitStep(r, now, y);
            Remembers(r', |r'.window.consumed|, r'.window.early, ys + [Answer(y, now)], now)
  {
    var k, r' := |r.window.consumed|, WaitStep(r, now, y);
    WaitLoops(r, now, y);
    WaitPosition(r.pc.stage, k, r.window.early, ys);
    WaitAnswered(r, k, r.window.early, ys, Answer(y, now), now);
    hide WaitStep;
    hide Remembers;
    hide ToldAt;
    hide PhaseOf;
    if r'.pc.At? && Loops(r.window, r'.pc.stage, r'.window, now) {
      WaitRemembered(r, r'.window, r'.pc.stage, k, ys + [Answer(y, now)], now);
    }
    hide Loops;
  }

  // --- every step, signal and delay ---------------------------------------------------------

  lemma StartTold(payload: Json, duration: int, now: int)
    ensures Told(Start(payload, duration), payload, duration, [], [], now)
  {
    NotYet(0, false, []);
    hide Applied;
    hide Unsafe;
    hide RevertLost;
    hide RevertDone;
    hide Rendered;
    hide Marked;
    hide Waited;
    hide Held;
  }

  lemma OverIsClosed(p: Pc)
    ensures PhaseOf(p) == Over ==> p.Closed?
  {
  }

  lemma StepTells(
      r: Run, payload: Json, duration: int, d: Device, m: Metrics, now: int, y: Reply, ys: seq<Answer>, gs: seq<Signal>)
    requires Told(r, payload, duration, ys, gs, now) && r.pc.At? && !IsTimer(r.pc)
    ensures Told(Step(r, d, m, now, y).0, payload, duration, ys + [Answer(y, now)], gs, now)
  {
    hide OpeningStep;
    hide AfterOpening;
    hide WaitStep;
    hide SafetyStep;
    hide AfterSafety;
    hide RevertStep;
    hide AfterRevert;
    hide ToldAt;
    hide ToldClosed;
    hide Remembers;
    hide PhaseOf;
    hide WaitStage;
    var k, early := |r.window.consumed|, r.window.early;
    match PhaseOf(r.pc)
    case Opening =>
      OpeningStepGoes(r, d, m, now, y);
      OpeningFrame(r, d, m, now, y);
      OpeningWindow(r, d, m, now, y);
      OpeningTold(r.pc.stage, duration, k, early, y, now, ys);
      OpeningRemembered(r, k, early, d, m, now, y, ys);
    case Open =>
      WaitLoops(r, now, y);
      WaitTold(r, duration, now, y, ys);
      WaitStepRemembered(r, now, y, ys);
    case Ending =>
      SafetyStepGoes(r, m, now, y);
      SafetyStepFrame(r, m, now, y);
      SafetyTold(r.pc.stage, duration, k, early, y, now, ys);
      SafetyRemembered(r, k, early, m, now, y, ys);
    case Reverting =>
      RevertStepGoes(r, d, m, y);
      RevertStepFrame(r, d, m, y);
      RevertTold(r.pc.stage, duration, k, early, y, now, ys);
      RevertRemembered(r, k, early, d, m, now, y, ys);
    case Over => OverIsClosed(r.pc);
  }

  lemma TimerTells(
      r: Run, payload: Json, duration: int, d: Device, m: Metrics, now: int, y: Reply, ys: seq<Answer>, gs: seq<Signal>)
    requires Told(r, payload, duration, ys, gs, now) && IsTimer(r.pc)
    ensures Told(Step(r, d, m, now, y).0, payload, duration, ys, gs, now)
  {
    if Wakes(r.window, now) {
      var (s, w) := LoopHead(r.window, now);
      LoopTold(r.window, now, duration, ys);
      LoopLoops(r.window, now);
      WaitRemembered(r, w, s, |r.window.consumed|, ys, now);
      hide Wakes;
      hide LoopHead;
      hide Drain;
      hide Remembers;
      hide ToldClosed;
      hide ToldAt;
    }
  }

  /** A signal touches neither what was consumed nor how the wait ended. */
  lemma SignalMoves(w: Window, g: Signal)
    ensures var w' := HandleSignal(w, g);
            && w'.consumed == w.consumed && w'.early == w.early && w'.appliedAt == w.appliedAt
            && w'.ended == w.ended && w'.endedAt == w.endedAt
  {
  }

  lemma SignalTells(
      r: Run, payload: Json, duration: int, g: Signal, ys: seq<Answer>, gs: seq<Signal>, now: int)
    requires Told(r, payload, duration, ys, gs, now)
    ensures Told(Handle(r, g), payload, duration, ys, gs + [g], now)
  {
    SignalReceived(r.window, gs, g);
    SignalMoves(r.window, g);
    hide HandleSignal;
    hide Received;
    hide ToldAt;
    hide ToldClosed;
    hide Flagged;
    hide Marked;
    hide Waited;
    hide Rendered;
  }

  lemma TimeTells(
      r: Run, payload: Json, duration: int, ys: seq<Answer>, gs: seq<Signal>, now: int, later: int)
    requires Told(r, payload, duration, ys, gs, now) && now <= later
    ensures Told(r, payload, duration, ys, gs, later)
  {
    hide Received;
    hide ToldAt;
    hide ToldClosed;
    hide Flagged;
    hide Marked;
    hide Waited;
    hide Rendered;
  }

  // --- the answers decide -------------------------------------------------------------------

  lemma StageIsUnique(s: Stage, t: Stage, k: nat, early: bool, ys: seq<Answer>)
    requires ToldAt(s, k, early, ys) && ToldAt(t, k, early, ys) && Escapes(s) && Escapes(t)
    ensures s == t
  {
    hide Held;
  }

  lemma ClosedOnce(o: Outcome, s: Stage, duration: int, k: nat, early: bool, ys: seq<Answer>)
    requires ToldClosed(o, duration, k, early, ys) && duration > 0
    ensures !ToldAt(s, k, early, ys)
  {
    if o.Crashed? {
      CrashedOnce(o.at, s, k, early, ys);
      hide ToldAt;
    } else {
      ReturnedOnce(o, s, duration, k, early, ys);
      hide ToldAt;
      hide ToldClosed;
    }
  }

  lemma ReturnedOnce(o: Outcome, s: Stage, duration: int, k: nat, early: bool, ys: seq<Answer>)
    requires ToldClosed(o, duration, k, early, ys) && duration > 0 && !o.Crashed?
    ensures !ToldAt(s, k, early, ys)
  {
  }

  lemma CrashedOnce(at: Stage, s: Stage, k: nat, early: bool, ys: seq<Answer>)
    requires |ys| > 0 && !Ok(ys, |ys| - 1) && Escapes(at) && ToldAt(at, k, early, ys[..|ys| - 1])
    ensures !ToldAt(s, k, early, ys)
  {
    var before, last := ys[..|ys| - 1], ys[|ys| - 1];
    assert ys == before + [last];
    OneMoreAnswer(before, last);
    OneMoreStays(k, early, before, last);
  }

  lemma OutcomeIsUnique(o: Outcome, p: Outcome, duration: int, k: nat, early: bool, ys: seq<Answer>)
    requires ToldClosed(o, duration, k, early, ys) && ToldClosed(p, duration, k, early, ys)
    ensures o == p
  {
    if o.Crashed? && p.Crashed? { StageIsUnique(o.at, p.at, k, early, ys[..|ys| - 1]); }
    hide Held;
  }

  /** The outcome of a run, by its answers, the extensions it consumed and the reason its wait ended. */
  lemma OutcomeIff(
      r: Run, payload: Json, duration: int, ys: seq<Answer>, gs: seq<Signal>, now: int, o: Outcome)
    requires Told(r, payload, duration, ys, gs, now)
    ensures r.pc == Closed(o) <==> ToldClosed(o, duration, |r.window.consumed|, r.window.early, ys)
  {
    var k, early := |r.window.consumed|, r.window.early;
    if ToldClosed(o, duration, k, early, ys) {
      assert duration > 0 || o == Refused;
      match r.pc
      case At(s) => if duration > 0 { ClosedOnce(o, s, duration, k, early, ys); }
      case Closed(p) => OutcomeIsUnique(o, p, duration, k, early, ys);
    }
    hide ToldClosed;
    hide ToldAt;
    hide Remembers;
    hide Received;
  }
}
