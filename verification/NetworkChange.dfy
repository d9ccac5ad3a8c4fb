/** The standard change saga as a step machine: one step for each awaited activity, together with
    the workflow code that runs before the next await. */
module NetworkChange {
  import opened Json
  import opened Devices
  import HygieneChecker

  datatype Stage =
    | Backup | StoreBackup | FetchIntent | MarkUnhygienic
    | Deploy | RollbackDeploy | MarkDeployFailed
    | ValidateBgp | ValidateInterfaces | RollbackValidation | MarkValidationFailed
    | MarkActive

  /** `Crashed(s)`: the exception of activity `s` (or of rendering or the gate, after the
      fetch) left the run.
      `Rejected(s)`: the run handled a failure, last by activity `s`, and raised its own error. */
  datatype Outcome = Success | Rejected(at: Stage) | Crashed(at: Stage)

  datatype Pc = At(stage: Stage) | Closed(outcome: Outcome)

  datatype Run = Run(
    pc: Pc, rules: HygieneChecker.Rules, backup: Json, payload: Json, bgpValid: bool, interfacesValid: bool)

  function Start(rules: HygieneChecker.Rules): Run {
    Run(At(Backup), rules, Null, Null, false, false)
  }

  /** The gate's verdict on what the fetch returned, once rendered. */
  function Verdict(y: Reply, rules: HygieneChecker.Rules): HygieneChecker.Verdict {
    HygieneChecker.Hygiene(Some(y.bgp), Some(y.doc), rules)
  }

  function Goto(r: Run, ok: bool, next: Pc): Run
    requires r.pc.At?
  {
    r.(pc := if ok then next else Closed(Crashed(r.pc.stage)))
  }

  function Step(r: Run, d: Device, y: Reply): (Run, Device) {
    match r.pc
    case Closed(_) => (r, d)
    case At(stage) =>
      match stage
      case Backup =>
        (Goto(r.(backup := if y.ok then d.config else r.backup), y.ok, At(StoreBackup)), d)
      case StoreBackup => (Goto(r, y.ok, At(FetchIntent)), d)
      case FetchIntent =>
        // Rendering and the hygiene gate run in the workflow, before the next await.
        var verdict := Verdict(y, r.rules);
        (Goto(r.(payload := y.doc), y.ok && y.renders && verdict != HygieneChecker.Raise,
              At(if verdict == HygieneChecker.Pass then Deploy else MarkUnhygienic)), d)
      case MarkUnhygienic =>
        (Goto(r, y.ok, Closed(Rejected(MarkUnhygienic))), if y.ok then d.(status := Maintenance) else d)
      case Deploy =>
        var (d', acked) := Push(d, Update(r.payload), y.lost);
        (r.(pc := At(if acked then ValidateBgp else RollbackDeploy)), d')
      case RollbackDeploy =>
        var (d', acked) := Push(d, Replace(r.backup), y.lost);
        (Goto(r, acked, At(MarkDeployFailed)), d')
      case MarkDeployFailed =>
        (Goto(r, y.ok, Closed(Rejected(MarkDeployFailed))), if y.ok then d.(status := Maintenance) else d)
      case ValidateBgp =>
        (r.(pc := At(if y.ok then ValidateInterfaces else RollbackValidation), bgpValid := y.ok), d)
      case ValidateInterfaces =>
        (r.(pc := At(if y.ok then MarkActive else RollbackValidation), interfacesValid := y.ok), d)
      case RollbackValidation =>
        var (d', acked) := Push(d, Replace(r.backup), y.lost);
        (Goto(r, acked, At(MarkValidationFailed)), d')
      case MarkValidationFailed =>
        (Goto(r, y.ok, Closed(Rejected(MarkValidationFailed))), if y.ok then d.(status := Maintenance) else d)
      case MarkActive =>
        (Goto(r, y.ok, Closed(Success)), if y.ok then d.(status := Active) else d)
  }

  predicate OnBackup(r: Run, base: Device, d: Device) {
    d.config == base.config && r.backup == base.config
  }

  predicate OnPayload(r: Run, base: Device, d: Device) {
    d.config == Merge(base.config, r.payload) && r.backup == base.config
  }

  /** What holds between the activities of a run that started on `base`, when no one else writes to
      the device. */
  predicate Inv(r: Run, base: Device, d: Device) {
    match r.pc
    case At(stage) =>
      d.status == base.status &&
      (match stage
       case Backup => d.config == base.config
       case StoreBackup | FetchIntent | MarkUnhygienic | Deploy => OnBackup(r, base, d)
       case RollbackDeploy => OnBackup(r, base, d) || OnPayload(r, base, d)
       case MarkDeployFailed => OnBackup(r, base, d)
       case ValidateBgp => OnPayload(r, base, d)
       case ValidateInterfaces => OnPayload(r, base, d) && r.bgpValid
       case RollbackValidation => OnPayload(r, base, d) && !(r.bgpValid && r.interfacesValid)
       case MarkValidationFailed => OnBackup(r, base, d)
       case MarkActive => OnPayload(r, base, d) && r.bgpValid && r.interfacesValid)
    case Closed(outcome) => Ending(r, outcome, base, d)
  }

  /** The four endings, told apart by the outcome: success with the payload merged in and both
      validators passed; the rollback itself failing; the last status write failing on a device that
      is as after success; and, for every other error, the device exactly as it was. */
  predicate Ending(r: Run, o: Outcome, base: Device, d: Device) {
    match o
    case Success => OnPayload(r, base, d) && r.bgpValid && r.interfacesValid && d.status == Active
    case Crashed(RollbackDeploy) | Crashed(RollbackValidation) =>
      d.status == base.status && (OnBackup(r, base, d) || OnPayload(r, base, d))
    case Crashed(MarkActive) => d.status == base.status && OnPayload(r, base, d) && r.bgpValid && r.interfacesValid
    case Crashed(_) => d == base
    case Rejected(_) => d == base.(status := Maintenance)
  }

  lemma StartHolds(rules: HygieneChecker.Rules, d: Device)
    ensures Inv(Start(rules), d, d)
  {
  }

  lemma StepKeepsInv(r: Run, base: Device, d: Device, y: Reply)
    requires Inv(r, base, d)
    ensures var (r', d') := Step(r, d, y); Inv(r', base, d')
  {
    hide Merge;
    hide Deliver;
    hide Push;
    hide Landed;
    hide Verdict;
    match r.pc
    case Closed(_) =>
    case At(stage) =>
      match stage
      case Deploy => PushCollapses(d, Update(r.payload), y.lost);
      case RollbackDeploy | RollbackValidation => PushCollapses(d, Replace(r.backup), y.lost);
      case Backup | StoreBackup | FetchIntent | MarkUnhygienic =>
      case MarkDeployFailed | ValidateBgp | ValidateInterfaces | MarkValidationFailed | MarkActive =>
  }

  // --- which answers lead where -------------------------------------------------------------

  /** The fetch returned, its result rendered, and the gate passed both payloads. */
  predicate Cleared(ys: seq<Answer>, rules: HygieneChecker.Rules) {
    Ok(ys, 0) && Ok(ys, 1) && Ok(ys, 2) && ys[2].reply.renders && Verdict(ys[2].reply, rules) == HygieneChecker.Pass
  }

  /** The same, but the gate refused them. */
  predicate Unclean(ys: seq<Answer>, rules: HygieneChecker.Rules) {
    Ok(ys, 0) && Ok(ys, 1) && Ok(ys, 2) && ys[2].reply.renders && Verdict(ys[2].reply, rules) == HygieneChecker.Fail
  }

  predicate Deployed(ys: seq<Answer>, rules: HygieneChecker.Rules) {
    Cleared(ys, rules) && Acked(ys, 3)
  }

  predicate DeployLost(ys: seq<Answer>, rules: HygieneChecker.Rules) {
    Cleared(ys, rules) && |ys| > 3 && !Acked(ys, 3)
  }

  /** Answer `last` is that of the first validator to fail after an acknowledged deploy. */
  predicate Invalid(ys: seq<Answer>, rules: HygieneChecker.Rules, last: nat) {
    && Deployed(ys, rules) && last < |ys| && !Ok(ys, last)
    && (last == 4 || (last == 5 && Ok(ys, 4)))
  }

  /** A run whose activities were answered by `ys` is awaiting the activity of this stage. */
  predicate ToldAt(s: Stage, rules: HygieneChecker.Rules, ys: seq<Answer>) {
    var n := |ys|;
    match s
    case Backup => n == 0
    case StoreBackup => n == 1 && Ok(ys, 0)
    case FetchIntent => n == 2 && Ok(ys, 0) && Ok(ys, 1)
    case MarkUnhygienic => n == 3 && Unclean(ys, rules)
    case Deploy => n == 3 && Cleared(ys, rules)
    case RollbackDeploy => n == 4 && DeployLost(ys, rules)
    case MarkDeployFailed => n == 5 && DeployLost(ys, rules) && Acked(ys, 4)
    case ValidateBgp => n == 4 && Deployed(ys, rules)
    case ValidateInterfaces => n == 5 && Deployed(ys, rules) && Ok(ys, 4)
    case RollbackValidation => n > 0 && Invalid(ys, rules, n - 1)
    case MarkValidationFailed => n > 1 && Invalid(ys, rules, n - 2) && Acked(ys, n - 1)
    case MarkActive => n == 6 && Deployed(ys, rules) && Ok(ys, 4) && Ok(ys, 5)
  }

  /** A run whose activities were answered by `ys` has closed with this outcome. */
  predicate ToldClosed(o: Outcome, rules: HygieneChecker.Rules, ys: seq<Answer>) {
    var n := |ys|;
    match o
    case Success => n == 7 && Deployed(ys, rules) && Ok(ys, 4) && Ok(ys, 5) && Ok(ys, 6)
    case Rejected(MarkUnhygienic) => n == 4 && Unclean(ys, rules) && Ok(ys, 3)
    case Rejected(MarkDeployFailed) => n == 6 && DeployLost(ys, rules) && Acked(ys, 4) && Ok(ys, 5)
    case Rejected(MarkValidationFailed) =>
      n > 2 && Invalid(ys, rules, n - 3) && Acked(ys, n - 2) && Ok(ys, n - 1)
    case Rejected(_) => false
    case Crashed(Backup) => n == 1 && !Ok(ys, 0)
    case Crashed(StoreBackup) => n == 2 && Ok(ys, 0) && !Ok(ys, 1)
    case Crashed(FetchIntent) =>
      n == 3 && Ok(ys, 0) && Ok(ys, 1) && !Cleared(ys, rules) && !Unclean(ys, rules)
    case Crashed(MarkUnhygienic) => n == 4 && Unclean(ys, rules) && !Ok(ys, 3)
    case Crashed(RollbackDeploy) => n == 5 && DeployLost(ys, rules) && !Acked(ys, 4)
    case Crashed(MarkDeployFailed) => n == 6 && DeployLost(ys, rules) && Acked(ys, 4) && !Ok(ys, 5)
    case Crashed(RollbackValidation) => n > 1 && Invalid(ys, rules, n - 2) && !Acked(ys, n - 1)
    case Crashed(MarkValidationFailed) =>
      n > 2 && Invalid(ys, rules, n - 3) && Acked(ys, n - 2) && !Ok(ys, n - 1)
    case Crashed(MarkActive) => n == 7 && Deployed(ys, rules) && Ok(ys, 4) && Ok(ys, 5) && !Ok(ys, 6)
    case Crashed(_) => false
  }

  predicate ToldPc(p: Pc, rules: HygieneChecker.Rules, ys: seq<Answer>) {
    match p
    case At(s) => ToldAt(s, rules, ys)
    case Closed(o) => ToldClosed(o, rules, ys)
  }

  /** The answers account for run `r`, started under `rules`: for where it is, and for what it deploys. */
  ghost predicate Told(r: Run, rules: HygieneChecker.Rules, ys: seq<Answer>) {
    && r.rules == rules && ToldPc(r.pc, rules, ys)
    && (|ys| > 2 ==> r.payload == ys[2].reply.doc)
  }

  lemma StartTold(rules: HygieneChecker.Rules)
    ensures Told(Start(rules), rules, [])
  {
  }

  /** The stages after an acknowledged deploy. */
  predicate IsLate(s: Stage) {
    s in {ValidateBgp, ValidateInterfaces, RollbackValidation, MarkValidationFailed, MarkActive}
  }

  lemma EarlyStepTells(
      r: Run, rules: HygieneChecker.Rules, d: Device, y: Reply, now: int, ys: seq<Answer>)
    requires Told(r, rules, ys) && r.pc.At? && !IsLate(r.pc.stage)
    ensures Told(Step(r, d, y).0, rules, ys + [Answer(y, now)])
  {
    PushAcks(d, Update(r.payload), y.lost);
    PushAcks(d, Replace(r.backup), y.lost);
    OneMoreAnswer(ys, Answer(y, now));
    hide Push;
    hide Verdict;
    hide Ok;
    hide Acked;
    hide Invalid;
  }

  lemma LateStepTells(
      r: Run, rules: HygieneChecker.Rules, d: Device, y: Reply, now: int, ys: seq<Answer>)
    requires Told(r, rules, ys) && r.pc.At? && IsLate(r.pc.stage)
    ensures Told(Step(r, d, y).0, rules, ys + [Answer(y, now)])
  {
    PushAcks(d, Update(r.payload), y.lost);
    PushAcks(d, Replace(r.backup), y.lost);
    OneMoreAnswer(ys, Answer(y, now));
    hide Push;
    hide Verdict;
    hide Ok;
    hide Acked;
  }

  lemma StepTells(r: Run, rules: HygieneChecker.Rules, d: Device, y: Reply, now: int, ys: seq<Answer>)
    requires Told(r, rules, ys) && r.pc.At?
    ensures Told(Step(r, d, y).0, rules, ys + [Answer(y, now)])
  {
    hide Told;
    hide Step;
    if IsLate(r.pc.stage) {
      LateStepTells(r, rules, d, y, now, ys);
    } else {
      EarlyStepTells(r, rules, d, y, now, ys);
    }
  }

  /** The same answers never lead to two places. */
  lemma ToldIsUnique(p: Pc, q: Pc, rules: HygieneChecker.Rules, ys: seq<Answer>)
    requires ToldPc(p, rules, ys) && ToldPc(q, rules, ys)
    ensures p == q
  {
    hide Verdict;
  }

  /** Where a run is, by its answers. */
  lemma PlaceIff(r: Run, rules: HygieneChecker.Rules, ys: seq<Answer>, p: Pc)
    requires Told(r, rules, ys)
    ensures r.pc == p <==> ToldPc(p, rules, ys)
  {
    if ToldPc(p, rules, ys) { ToldIsUnique(r.pc, p, rules, ys); }
    hide ToldPc;
  }

  /** A change writes to its device only when its fetch returned, rendered, and passed the gate. */
  lemma WritesOnlyIfCleared(r: Run, rules: HygieneChecker.Rules, base: Device, d: Device, ys: seq<Answer>)
    requires Inv(r, base, d) && Told(r, rules, ys)
    ensures d.config != base.config ==> Cleared(ys, rules)
  {
    hide Merge;
    hide Verdict;
  }
}
