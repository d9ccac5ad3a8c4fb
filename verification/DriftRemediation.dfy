/** Drift detection and remediation as a step machine. Remediation is a merge of the intent, and a
    failed one is not rolled back. */
module DriftRemediation {
  import opened Json
  import opened Devices
  import opened DriftMeasures

  datatype Stage =
    | FetchIntent | Render | FetchRunning
    | AuditDetected | AuditSuppressed | AuditLogged
    | Backup | StoreBackup
    | Deploy | MarkDeployFailed | AuditDeployFailed
    | ValidateBgp | ValidateInterfaces | MarkValidationFailed | AuditValidationFailed
    | MarkActive | AuditRemediated

  datatype Outcome = InSync | Suppressed | Logged | Remediated | Rejected(at: Stage) | Crashed(at: Stage)

  datatype Pc = At(stage: Stage) | Closed(outcome: Outcome)

  /** `status` is the device status that the intent was fetched with; it is what the policy reads. */
  datatype Run = Run(
    pc: Pc, status: Status, intended: Json, running: Json, backup: Json, bgpValid: bool, interfacesValid: bool)

  function Start(): Run {
    Run(At(FetchIntent), Active, Null, Null, Null, false, false)
  }

  function Fields(j: Json): Doc {
    if j.Obj? then j.fields else map[]
  }

  /** The classifier raises on two different documents unless both are objects. */
  predicate Comparable(r: Run) {
    r.intended == r.running || (r.intended.Obj? && r.running.Obj?)
  }

  function ActionOf(r: Run): Action {
    DecideDriftAction(SeverityOf(Fields(r.intended), Fields(r.running)), r.status)
  }

  function Goto(r: Run, ok: bool, next: Pc): Run
    requires r.pc.At?
  {
    r.(pc := if ok then next else Closed(Crashed(r.pc.stage)))
  }

  function AfterDetection(a: Action): Stage {
    match a
    case SuppressMaintenance => AuditSuppressed
    case LogOnly => AuditLogged
    case _ => Backup
  }

  function Step(r: Run, d: Device, y: Reply): (Run, Device) {
    match r.pc
    case Closed(_) => (r, d)
    case At(stage) =>
      match stage
      case FetchIntent => (Goto(r.(status := d.status), y.ok, At(Render)), d)
      case Render => (Goto(r.(intended := y.doc), y.ok, At(FetchRunning)), d)
      case FetchRunning =>
        // Classification and the policy run in the workflow, before the next await.
        var seen := r.(running := d.config);
        var next := if ActionOf(seen) == Nothing then Closed(InSync) else At(AuditDetected);
        (Goto(seen, y.ok && Comparable(seen), next), d)
      case AuditDetected => (Goto(r, y.ok, At(AfterDetection(ActionOf(r)))), d)
      case AuditSuppressed => (Goto(r, y.ok, Closed(Suppressed)), d)
      case AuditLogged => (Goto(r, y.ok, Closed(Logged)), d)
      case Backup =>
        (Goto(r.(backup := if y.ok then d.config else r.backup), y.ok, At(StoreBackup)), d)
      case StoreBackup => (Goto(r, y.ok, At(Deploy)), d)
      case Deploy =>
        var (d', acked) := Push(d, Update(r.intended), y.lost);
        (r.(pc := At(if acked then ValidateBgp else MarkDeployFailed)), d')
      case MarkDeployFailed =>
        (r.(pc := if y.ok then At(AuditDeployFailed) else Closed(Rejected(MarkDeployFailed))),
         if y.ok then d.(status := Maintenance) else d)
      case AuditDeployFailed => (r.(pc := Closed(Rejected(AuditDeployFailed))), d)
      case ValidateBgp =>
        (r.(pc := At(if y.ok then ValidateInterfaces else MarkValidationFailed), bgpValid := y.ok), d)
      case ValidateInterfaces =>
        (r.(pc := At(if y.ok then MarkActive else MarkValidationFailed), interfacesValid := y.ok), d)
      case MarkValidationFailed =>
        (r.(pc := if y.ok then At(AuditValidationFailed) else Closed(Rejected(MarkValidationFailed))),
         if y.ok then d.(status := Maintenance) else d)
      case AuditValidationFailed => (r.(pc := Closed(Rejected(AuditValidationFailed))), d)
      case MarkActive =>
        (Goto(r, y.ok, At(AuditRemediated)), if y.ok then d.(status := Active) else d)
      case AuditRemediated => (Goto(r, y.ok, Closed(Remediated)), d)
  }

  /** The stages at and after which the run has decided to write. */
  predicate Writing(p: Pc) {
    match p
    case At(s) => s !in {FetchIntent, Render, FetchRunning, AuditDetected, AuditSuppressed, AuditLogged}
    case Closed(_) => false
  }

  predicate SawBase(r: Run, base: Device) {
    r.status == base.status && r.running == base.config && Comparable(r)
  }

  /** Both validators have passed. */
  predicate Valid(r: Run) {
    r.bgpValid && r.interfacesValid
  }

  predicate OnIntent(r: Run, base: Device, d: Device) {
    d.config == Merge(base.config, r.intended)
  }

  predicate Inv(r: Run, base: Device, d: Device) {
    match r.pc
    case Closed(outcome) => Ending(r, outcome, base, d)
    case At(stage) =>
      match stage
      case FetchIntent => d == base
      case Render | FetchRunning => d == base && r.status == base.status
      case AuditDetected => d == base && SawBase(r, base) && ActionOf(r) != Nothing
      case AuditSuppressed => d == base && SawBase(r, base) && ActionOf(r) == SuppressMaintenance
      case AuditLogged => d == base && SawBase(r, base) && ActionOf(r) == LogOnly
      case Backup | StoreBackup | Deploy => d == base && SawBase(r, base) && ActionOf(r) == Remediate
      case MarkDeployFailed =>
        && SawBase(r, base) && ActionOf(r) == Remediate && d.status == base.status
        && (d == base || OnIntent(r, base, d))
      case AuditDeployFailed =>
        && SawBase(r, base) && ActionOf(r) == Remediate && d.status == Maintenance
        && (d.config == base.config || OnIntent(r, base, d))
      case ValidateBgp =>
        SawBase(r, base) && ActionOf(r) == Remediate && d.status == base.status && OnIntent(r, base, d)
      case ValidateInterfaces =>
        SawBase(r, base) && ActionOf(r) == Remediate && d.status == base.status && OnIntent(r, base, d) && r.bgpValid
      case MarkValidationFailed =>
        SawBase(r, base) && ActionOf(r) == Remediate && d.status == base.status && OnIntent(r, base, d) && !Valid(r)
      case MarkActive =>
        SawBase(r, base) && ActionOf(r) == Remediate && d.status == base.status && OnIntent(r, base, d) && Valid(r)
      case AuditValidationFailed =>
        SawBase(r, base) && ActionOf(r) == Remediate && d.status == Maintenance && OnIntent(r, base, d) && !Valid(r)
      case AuditRemediated =>
        SawBase(r, base) && ActionOf(r) == Remediate && d.status == Active && OnIntent(r, base, d) && Valid(r)
  }

  /** How a run can end. Only the endings after the decision to remediate may have written. */
  predicate Ending(r: Run, o: Outcome, base: Device, d: Device) {
    match o
    case InSync => d == base && SawBase(r, base) && ActionOf(r) == Nothing
    case Suppressed => d == base && SawBase(r, base) && ActionOf(r) == SuppressMaintenance
    case Logged => d == base && SawBase(r, base) && ActionOf(r) == LogOnly
    case Remediated =>
      SawBase(r, base) && ActionOf(r) == Remediate && d.status == Active && OnIntent(r, base, d) && Valid(r)
    case Crashed(AuditRemediated) =>
      SawBase(r, base) && ActionOf(r) == Remediate && d.status == Active && OnIntent(r, base, d) && Valid(r)
    case Crashed(MarkActive) =>
      SawBase(r, base) && ActionOf(r) == Remediate && d.status == base.status && OnIntent(r, base, d) && Valid(r)
    case Crashed(_) => d == base
    case Rejected(at) =>
      && at in {MarkDeployFailed, AuditDeployFailed, MarkValidationFailed, AuditValidationFailed}
      && SawBase(r, base) && ActionOf(r) == Remediate
      && d.status == (if at in {AuditDeployFailed, AuditValidationFailed} then Maintenance else base.status)
      && (OnIntent(r, base, d) || (d.config == base.config && at in {MarkDeployFailed, AuditDeployFailed}))
      && (at in {MarkValidationFailed, AuditValidationFailed} ==> !Valid(r))
  }

  /** The stages after the write. */
  predicate Written(s: Stage) {
    s in {MarkDeployFailed, AuditDeployFailed, ValidateBgp, ValidateInterfaces, MarkValidationFailed,
          AuditValidationFailed, MarkActive, AuditRemediated}
  }

  lemma UnwrittenStepKeepsInv(r: Run, base: Device, d: Device, y: Reply)
    requires Inv(r, base, d) && r.pc.At? && !Written(r.pc.stage)
    ensures var (r', d') := Step(r, d, y); Inv(r', base, d')
  {
    hide Merge;
    hide Push;
    hide Landed;
    hide SeverityOf;
    hide DecideDriftAction;
    if r.pc == At(Deploy) { PushCollapses(d, Update(r.intended), y.lost); }
  }

  lemma WrittenStepKeepsInv(r: Run, base: Device, d: Device, y: Reply)
    requires Inv(r, base, d) && r.pc.At? && Written(r.pc.stage)
    ensures var (r', d') := Step(r, d, y); Inv(r', base, d')
  {
    hide Merge;
    hide Push;
    hide SeverityOf;
    hide DecideDriftAction;
  }

  lemma StepKeepsInv(r: Run, base: Device, d: Device, y: Reply)
    requires Inv(r, base, d)
    ensures var (r', d') := Step(r, d, y); Inv(r', base, d')
  {
    if r.pc.At? {
      hide Inv;
      hide Step;
      if Written(r.pc.stage) {
        WrittenStepKeepsInv(r, base, d, y);
      } else {
        UnwrittenStepKeepsInv(r, base, d, y);
      }
    }
  }

  /** A run on a device in maintenance never gets as far as writing. */
  lemma MaintenanceNeverWrites(r: Run, base: Device, d: Device)
    requires Inv(r, base, d) && base.status == Maintenance && r.pc.At?
    ensures !Writing(r.pc) && d == base
  {
    hide Merge;
    hide SeverityOf;
  }

  /** What the four returned results mean: three leave the device alone, and a remediated device reads
      as the intent on every path that the intent names, both validators having passed. */
  lemma ResultsMean(r: Run, o: Outcome, base: Device, d: Device)
    requires Ending(r, o, base, d)
    ensures o in {InSync, Suppressed, Logged} ==> d == base
    ensures o == InSync ==> base.config == r.intended
    ensures o == Suppressed ==> base.status == Maintenance && base.config != r.intended
    ensures o == Logged ==> base.status != Maintenance
                            && SeverityOf(Fields(r.intended), Fields(base.config)) == Cosmetic
    ensures o == Remediated ==>
              && base.status != Maintenance
              && SeverityOf(Fields(r.intended), Fields(base.config)) == Critical
              && Honours(d.config, r.intended)
              && r.bgpValid && r.interfacesValid
  {
    MergeHonours(base.config, r.intended);
  }

  /** After a remediation: remediating the same intent again changes nothing, and a re-check finds no
      drift exactly when the drifted configuration had no path outside the intent. */
  lemma AfterRemediation(r: Run, base: Device, d: Device)
    requires Ending(r, Remediated, base, d)
    ensures Merge(d.config, r.intended) == d.config
    ensures DecideDriftAction(SeverityOf(Fields(r.intended), Fields(d.config)), d.status) == Nothing
            <==> !AddsPath(r.intended, base.config)
  {
    MergeIdempotent(base.config, r.intended);
    UpdateLeavesPayloadIff(base.config, r.intended);
  }

  // --- which answers lead where -------------------------------------------------------------

  /** Intent, rendering and running configuration are there, and the classifier did not raise. */
  predicate Seen(ys: seq<Answer>, comparable: bool) {
    Ok(ys, 0) && Ok(ys, 1) && Ok(ys, 2) && comparable
  }

  /** Drift was found and audited, the policy said to remediate, and the backup was stored. */
  predicate Ready(ys: seq<Answer>, comparable: bool, a: Action) {
    Seen(ys, comparable) && a == Remediate && Ok(ys, 3) && Ok(ys, 4) && Ok(ys, 5)
  }

  predicate Deployed(ys: seq<Answer>, comparable: bool, a: Action) {
    Ready(ys, comparable, a) && Acked(ys, 6)
  }

  predicate DeployLost(ys: seq<Answer>, comparable: bool, a: Action) {
    Ready(ys, comparable, a) && |ys| > 6 && !Acked(ys, 6)
  }

  /** Both validators returned after an acknowledged remediation. */
  predicate Validated(ys: seq<Answer>, comparable: bool, a: Action) {
    Deployed(ys, comparable, a) && Ok(ys, 7) && Ok(ys, 8)
  }

  /** Answer `last` is that of the first validator to fail after an acknowledged remediation. */
  predicate Invalid(ys: seq<Answer>, comparable: bool, a: Action, last: nat) {
    && Deployed(ys, comparable, a) && last < |ys| && !Ok(ys, last)
    && (last == 7 || (last == 8 && Ok(ys, 7)))
  }

  /** A run whose activities were answered by `ys` is awaiting the activity of this stage. `comparable`
      and `a` are the verdicts of the classifier and the policy on the documents that were answered. */
  predicate ToldAt(s: Stage, comparable: bool, a: Action, ys: seq<Answer>) {
    var n := |ys|;
    match s
    case FetchIntent => n == 0
    case Render => n == 1 && Ok(ys, 0)
    case FetchRunning => n == 2 && Ok(ys, 0) && Ok(ys, 1)
    case AuditDetected => n == 3 && Seen(ys, comparable) && a != Nothing
    case AuditSuppressed => n == 4 && Seen(ys, comparable) && Ok(ys, 3) && a == SuppressMaintenance
    case AuditLogged => n == 4 && Seen(ys, comparable) && Ok(ys, 3) && a == LogOnly
    case Backup => n == 4 && Seen(ys, comparable) && Ok(ys, 3) && a == Remediate
    case StoreBackup => n == 5 && Seen(ys, comparable) && Ok(ys, 3) && Ok(ys, 4) && a == Remediate
    case Deploy => n == 6 && Ready(ys, comparable, a)
    case MarkDeployFailed => n == 7 && DeployLost(ys, comparable, a)
    case AuditDeployFailed => n == 8 && DeployLost(ys, comparable, a) && Ok(ys, 7)
    case ValidateBgp => n == 7 && Deployed(ys, comparable, a)
    case ValidateInterfaces => n == 8 && Deployed(ys, comparable, a) && Ok(ys, 7)
    case MarkValidationFailed => n > 0 && Invalid(ys, comparable, a, n - 1)
    case AuditValidationFailed => n > 1 && Invalid(ys, comparable, a, n - 2) && Ok(ys, n - 1)
    case MarkActive => n == 9 && Validated(ys, comparable, a)
    case AuditRemediated => n == 10 && Validated(ys, comparable, a) && Ok(ys, 9)
  }

  /** A run whose activities were answered by `ys` has closed with this outcome. */
  predicate ToldClosed(o: Outcome, comparable: bool, a: Action, ys: seq<Answer>) {
    var n := |ys|;
    match o
    case InSync => n == 3 && Seen(ys, comparable) && a == Nothing
    case Suppressed => n == 5 && Seen(ys, comparable) && Ok(ys, 3) && Ok(ys, 4) && a == SuppressMaintenance
    case Logged => n == 5 && Seen(ys, comparable) && Ok(ys, 3) && Ok(ys, 4) && a == LogOnly
    case Remediated => n == 11 && Validated(ys, comparable, a) && Ok(ys, 9) && Ok(ys, 10)
    case Rejected(MarkDeployFailed) => n == 8 && DeployLost(ys, comparable, a) && !Ok(ys, 7)
    case Rejected(AuditDeployFailed) => n == 9 && DeployLost(ys, comparable, a) && Ok(ys, 7)
    case Rejected(MarkValidationFailed) => n > 1 && Invalid(ys, comparable, a, n - 2) && !Ok(ys, n - 1)
    case Rejected(AuditValidationFailed) => n > 2 && Invalid(ys, comparable, a, n - 3) && Ok(ys, n - 2)
    case Rejected(_) => false
    case Crashed(FetchIntent) => n == 1 && !Ok(ys, 0)
    case Crashed(Render) => n == 2 && Ok(ys, 0) && !Ok(ys, 1)
    case Crashed(FetchRunning) => n == 3 && Ok(ys, 0) && Ok(ys, 1) && !Seen(ys, comparable)
    case Crashed(AuditDetected) => n == 4 && Seen(ys, comparable) && a != Nothing && !Ok(ys, 3)
    case Crashed(AuditSuppressed) =>
      n == 5 && Seen(ys, comparable) && a == SuppressMaintenance && Ok(ys, 3) && !Ok(ys, 4)
    case Crashed(AuditLogged) => n == 5 && Seen(ys, comparable) && a == LogOnly && Ok(ys, 3) && !Ok(ys, 4)
    case Crashed(Backup) => n == 5 && Seen(ys, comparable) && a == Remediate && Ok(ys, 3) && !Ok(ys, 4)
    case Crashed(StoreBackup) =>
      n == 6 && Seen(ys, comparable) && a == Remediate && Ok(ys, 3) && Ok(ys, 4) && !Ok(ys, 5)
    case Crashed(MarkActive) => n == 10 && Validated(ys, comparable, a) && !Ok(ys, 9)
    case Crashed(AuditRemediated) => n == 11 && Validated(ys, comparable, a) && Ok(ys, 9) && !Ok(ys, 10)
    case Crashed(_) => false
  }

  predicate ToldPc(p: Pc, comparable: bool, a: Action, ys: seq<Answer>) {
    match p
    case At(s) => ToldAt(s, comparable, a, ys)
    case Closed(o) => ToldClosed(o, comparable, a, ys)
  }

  /** What the run remembers of the device it found and of its answers: status, intent, running
      configuration, and what its validators said. */
  predicate Remembers(r: Run, base: Device, ys: seq<Answer>) {
    && (|ys| > 0 ==> r.status == base.status)
    && (|ys| > 1 ==> r.intended == ys[1].reply.doc)
    && (|ys| > 2 ==> r.running == base.config)
    && (|ys| > 7 && Deployed(ys, Comparable(r), ActionOf(r)) ==> r.bgpValid == Ok(ys, 7))
    && (|ys| > 8 && Deployed(ys, Comparable(r), ActionOf(r)) && Ok(ys, 7) ==> r.interfacesValid == Ok(ys, 8))
  }

  /** The answers account for run `r` on `base`: for where it is, and for what it remembers. */
  predicate Told(r: Run, base: Device, ys: seq<Answer>) {
    ToldPc(r.pc, Comparable(r), ActionOf(r), ys) && Remembers(r, base, ys)
  }

  lemma StartTold(base: Device)
    ensures Told(Start(), base, [])
  {
  }

  /** Up to the classification. */
  predicate IsFirst(s: Stage) {
    s in {FetchIntent, Render, FetchRunning}
  }

  lemma FirstStepTells(r: Run, d: Device, y: Reply, now: int, ys: seq<Answer>)
    requires Told(r, d, ys) && r.pc.At? && IsFirst(r.pc.stage)
    ensures Told(Step(r, d, y).0, d, ys + [Answer(y, now)])
  {
    OneMoreAnswer(ys, Answer(y, now));
    hide Ok;
    hide Acked;
    hide SeverityOf;
  }

  /** Where the next answer leads after the classification, on the two verdicts. */
  function NextPc(s: Stage, y: Reply, a: Action): Pc
    requires !IsFirst(s)
  {
    match s
    case AuditDetected => if y.ok then At(AfterDetection(a)) else Closed(Crashed(s))
    case AuditSuppressed => Closed(if y.ok then Suppressed else Crashed(s))
    case AuditLogged => Closed(if y.ok then Logged else Crashed(s))
    case Backup => if y.ok then At(StoreBackup) else Closed(Crashed(s))
    case StoreBackup => if y.ok then At(Deploy) else Closed(Crashed(s))
    case Deploy => At(if |y.lost| < MAX_ATTEMPTS then ValidateBgp else MarkDeployFailed)
    case MarkDeployFailed => if y.ok then At(AuditDeployFailed) else Closed(Rejected(s))
    case AuditDeployFailed | AuditValidationFailed => Closed(Rejected(s))
    case ValidateBgp => At(if y.ok then ValidateInterfaces else MarkValidationFailed)
    case ValidateInterfaces => At(if y.ok then MarkActive else MarkValidationFailed)
    case MarkValidationFailed => if y.ok then At(AuditValidationFailed) else Closed(Rejected(s))
    case MarkActive => if y.ok then At(AuditRemediated) else Closed(Crashed(s))
    case _ => Closed(if y.ok then Remediated else Crashed(s))
  }

  lemma StepGoes(r: Run, d: Device, y: Reply)
    requires r.pc.At? && !IsFirst(r.pc.stage)
    ensures var r' := Step(r, d, y).0;
            && r'.pc == NextPc(r.pc.stage, y, ActionOf(r))
            && r'.bgpValid == (if r.pc == At(ValidateBgp) then y.ok else r.bgpValid)
            && r'.interfacesValid == (if r.pc == At(ValidateInterfaces) then y.ok else r.interfacesValid)
            && Comparable(r') == Comparable(r) && ActionOf(r') == ActionOf(r)
            && r'.intended == r.intended && r'.running == r.running && r'.status == r.status
  {
    PushCollapses(d, Update(r.intended), y.lost);
    hide Push;
    hide SeverityOf;
    hide DecideDriftAction;
  }

  lemma NextPcTold(s: Stage, comparable: bool, a: Action, y: Reply, now: int, ys: seq<Answer>)
    requires !IsFirst(s) && ToldAt(s, comparable, a, ys)
    ensures ToldPc(NextPc(s, y, a), comparable, a, ys + [Answer(y, now)])
  {
    OneMoreAnswer(ys, Answer(y, now));
    hide Ok;
    hide Acked;
  }

  lemma NextRemembered(r: Run, base: Device, d: Device, y: Reply, now: int, ys: seq<Answer>)
    requires r.pc.At? && !IsFirst(r.pc.stage) && Told(r, base, ys)
    ensures Remembers(Step(r, d, y).0, base, ys + [Answer(y, now)])
  {
    StepGoes(r, d, y);
    StagePosition(r.pc.stage, Comparable(r), ActionOf(r), ys);
    OneMoreAnswer(ys, Answer(y, now));
    if |ys| >= 7 { DeployedStays(ys, Answer(y, now), Comparable(r), ActionOf(r)); }
    hide Step;
    hide Ok;
    hide Acked;
    hide ToldAt;
    hide Comparable;
    hide ActionOf;
    hide Deployed;
  }

  /** The validators are answers 7 and 8. */
  lemma StagePosition(s: Stage, comparable: bool, a: Action, ys: seq<Answer>)
    requires !IsFirst(s) && ToldAt(s, comparable, a, ys)
    ensures |ys| >= 3
    ensures s == ValidateBgp ==> |ys| == 7
    ensures s == ValidateInterfaces ==> |ys| == 8
    ensures |ys| == 7 && s != ValidateBgp ==> !Deployed(ys, comparable, a)
    ensures |ys| == 8 && s != ValidateInterfaces ==> !(Deployed(ys, comparable, a) && Ok(ys, 7))
  {
  }

  lemma DeployedStays(ys: seq<Answer>, answer: Answer, comparable: bool, a: Action)
    requires |ys| >= 7
    ensures Deployed(ys + [answer], comparable, a) == Deployed(ys, comparable, a)
  {
    OneMoreAnswer(ys, answer);
    hide Ok;
    hide Acked;
  }

  lemma StepTells(r: Run, base: Device, d: Device, y: Reply, now: int, ys: seq<Answer>)
    requires Told(r, base, ys) && Inv(r, base, d) && r.pc.At?
    ensures Told(Step(r, d, y).0, base, ys + [Answer(y, now)])
  {
    if IsFirst(r.pc.stage) {
      FirstIsUntouched(r, base, d);
      FirstStepTells(r, d, y, now, ys);
    } else {
      hide Remembers;
      hide ToldAt;
      hide ToldClosed;
      StepGoes(r, d, y);
      NextPcTold(r.pc.stage, Comparable(r), ActionOf(r), y, now, ys);
      NextRemembered(r, base, d, y, now, ys);
      hide Step;
      hide NextPc;
      hide Comparable;
      hide ActionOf;
      hide Inv;
    }
  }

  lemma FirstIsUntouched(r: Run, base: Device, d: Device)
    requires Inv(r, base, d) && r.pc.At? && IsFirst(r.pc.stage)
    ensures d == base
  {
    hide Merge;
    hide SeverityOf;
  }

  /** Whether the classifier raises on the intent that was answered and the device that was found. */
  predicate ComparesTo(base: Device, ys: seq<Answer>) {
    |ys| > 1 && (ys[1].reply.doc == base.config || (ys[1].reply.doc.Obj? && base.config.Obj?))
  }

  /** What classifier and policy say of them. */
  function ActionOn(base: Device, ys: seq<Answer>): Action {
    if |ys| > 1 then DecideDriftAction(SeverityOf(Fields(ys[1].reply.doc), Fields(base.config)), base.status)
    else Nothing
  }

  /** The same answers and verdicts never lead to two places. */
  lemma ToldIsUnique(p: Pc, q: Pc, comparable: bool, a: Action, ys: seq<Answer>)
    requires ToldPc(p, comparable, a, ys) && ToldPc(q, comparable, a, ys)
    ensures p == q
  {
  }

  lemma VerdictsComeThird(p: Pc, c: bool, a: Action, c': bool, a': Action, ys: seq<Answer>)
    requires |ys| <= 2
    ensures ToldPc(p, c, a, ys) <==> ToldPc(p, c', a', ys)
  {
  }

  /** Where a run is, by its answers and the device that it found. */
  lemma PlaceIff(r: Run, base: Device, ys: seq<Answer>, p: Pc)
    requires Told(r, base, ys)
    ensures r.pc == p <==> ToldPc(p, ComparesTo(base, ys), ActionOn(base, ys), ys)
  {
    var c, a := Comparable(r), ActionOf(r);
    if |ys| <= 2 {
      VerdictsComeThird(p, c, a, ComparesTo(base, ys), ActionOn(base, ys), ys);
    }
    if ToldPc(p, c, a, ys) { ToldIsUnique(r.pc, p, c, a, ys); }
    hide ToldPc;
    hide SeverityOf;
    hide DecideDriftAction;
  }

  /** An acknowledged remediation of which a validator fails never marks its device active; the device is
      in maintenance as soon as the next answer, that of the status write, is there and good. */
  lemma InvalidNeverActive(r: Run, base: Device, d: Device, ys: seq<Answer>, last: nat)
    requires Inv(r, base, d) && Told(r, base, ys)
    requires Invalid(ys, ComparesTo(base, ys), ActionOn(base, ys), last)
    ensures r.pc in {At(MarkValidationFailed), At(AuditValidationFailed),
                     Closed(Rejected(MarkValidationFailed)), Closed(Rejected(AuditValidationFailed))}
    ensures d.status == if Ok(ys, last + 1) then Maintenance else base.status
  {
    assert Comparable(r) == ComparesTo(base, ys) && ActionOf(r) == ActionOn(base, ys);
    hide SeverityOf;
    hide DecideDriftAction;
    hide ComparesTo;
    hide ActionOn;
    hide Merge;
  }
}
