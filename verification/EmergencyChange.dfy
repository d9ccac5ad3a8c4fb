/** The emergency change saga as a step machine: no hygiene gate, and an automatic revert when a
    time to live is given. */
module EmergencyChange {
  import opened Json
  import opened Devices

  datatype Stage =
    | AuditInitiated | Backup | StoreBackup | MarkMaintenance
    | Deploy | RollbackDeploy | AuditDeployFailed
    | Validate | RollbackValidation | AuditValidationFailed
    | AuditApplied
    | Sleep | Revert | AuditRevertFailed | MarkActiveReverted | AuditReverted
    | MarkActiveApplied

  /** `Refused`: a negative time to live. `Rejected(s)` and `Crashed(s)` as in the standard change. */
  datatype Outcome = Reverted | Applied | Refused | Rejected(at: Stage) | Crashed(at: Stage)

  datatype Pc = At(stage: Stage) | Closed(outcome: Outcome)

  datatype Run = Run(
    pc: Pc, ttl: int, payload: Json, backup: Json, validated: bool,
    validatedAt: int, wakeAt: int, revertedAt: int, wroteActive: bool)

  function Start(payload: Json, ttl: int): Run {
    Run(if ttl < 0 then Closed(Refused) else At(AuditInitiated), ttl, payload, Null, false, 0, 0, 0, false)
  }

  function Goto(r: Run, ok: bool, next: Pc): Run
    requires r.pc.At?
  {
    r.(pc := if ok then next else Closed(Crashed(r.pc.stage)))
  }

  /** A stage inside a `try` whose failure is logged and nothing more. */
  function Regardless(r: Run, next: Pc): Run {
    r.(pc := next)
  }

  function Step(r: Run, d: Device, now: int, y: Reply): (Run, Device) {
    match r.pc
    case Closed(_) => (r, d)
    case At(stage) =>
      match stage
      case AuditInitiated => (Goto(r, y.ok, At(Backup)), d)
      case Backup =>
        (Goto(r.(backup := if y.ok then d.config else r.backup), y.ok, At(StoreBackup)), d)
      case StoreBackup => (Goto(r, y.ok, At(MarkMaintenance)), d)
      case MarkMaintenance =>
        (Goto(r, y.ok, At(Deploy)), if y.ok then d.(status := Maintenance) else d)
      case Deploy =>
        var (d', acked) := Push(d, Update(r.payload), y.lost);
        (r.(pc := At(if acked then Validate else RollbackDeploy)), d')
      case RollbackDeploy =>
        var (d', acked) := Push(d, Replace(r.backup), y.lost);
        (Regardless(r, if acked then At(AuditDeployFailed) else Closed(Rejected(RollbackDeploy))), d')
      case AuditDeployFailed => (Regardless(r, Closed(Rejected(AuditDeployFailed))), d)
      case Validate =>
        (r.(pc := At(if y.ok then AuditApplied else RollbackValidation), validated := y.ok, validatedAt := now), d)
      case RollbackValidation =>
        var (d', acked) := Push(d, Replace(r.backup), y.lost);
        (Regardless(r, if acked then At(AuditValidationFailed) else Closed(Rejected(RollbackValidation))), d')
      case AuditValidationFailed => (Regardless(r, Closed(Rejected(AuditValidationFailed))), d)
      case AuditApplied =>
        (Goto(r.(wakeAt := now + r.ttl), y.ok, At(if r.ttl > 0 then Sleep else MarkActiveApplied)), d)
      case Sleep =>
        // The durable timer: the run stays here until it fires.
        (if now >= r.wakeAt then r.(pc := At(Revert)) else r, d)
      case Revert =>
        var (d', acked) := Push(d, Replace(r.backup), y.lost);
        (r.(pc := At(if acked then MarkActiveReverted else AuditRevertFailed), revertedAt := now), d')
      case AuditRevertFailed => (Regardless(r, Closed(Rejected(AuditRevertFailed))), d)
      case MarkActiveReverted =>
        (Regardless(r.(wroteActive := y.ok), At(AuditReverted)), if y.ok then d.(status := Active) else d)
      case AuditReverted => (Regardless(r, Closed(Reverted)), d)
      case MarkActiveApplied =>
        (Regardless(r.(wroteActive := y.ok), Closed(Applied)), if y.ok then d.(status := Active) else d)
  }

  predicate OnBackup(r: Run, base: Device, d: Device) {
    d.config == base.config && r.backup == base.config
  }

  predicate OnPayload(r: Run, base: Device, d: Device) {
    d.config == Merge(base.config, r.payload) && r.backup == base.config
  }

  /** What holds at time `now` between the activities of a run that started on `base`. */
  predicate Inv(r: Run, base: Device, d: Device, now: int) {
    match r.pc
    case Closed(outcome) => Ending(r, outcome, base, d)
    case At(stage) =>
      r.ttl >= 0 &&
      match stage
      case AuditInitiated | Backup => !r.wroteActive && d == base
      case StoreBackup | MarkMaintenance =>
        !r.wroteActive && d.status == base.status && OnBackup(r, base, d)
      case AuditReverted =>
        TtlPassed(r) && OnBackup(r, base, d) && d.status == if r.wroteActive then Active else Maintenance
      case _ =>
        && d.status == Maintenance && !r.wroteActive
        && (match stage
            case Deploy | AuditDeployFailed | AuditValidationFailed => OnBackup(r, base, d)
            case RollbackDeploy => OnBackup(r, base, d) || OnPayload(r, base, d)
            case Validate => OnPayload(r, base, d)
            case RollbackValidation => OnPayload(r, base, d) && !r.validated
            case AuditApplied => OnPayload(r, base, d) && r.validated && r.validatedAt <= now
            case Sleep => OnPayload(r, base, d) && r.validated && r.ttl > 0 && r.validatedAt + r.ttl <= r.wakeAt
            case Revert => OnPayload(r, base, d) && r.validated && r.ttl > 0 && r.validatedAt + r.ttl <= now
            case AuditRevertFailed => (OnBackup(r, base, d) || OnPayload(r, base, d)) && r.validated
            case MarkActiveReverted => TtlPassed(r) && OnBackup(r, base, d)
            case _ => OnPayload(r, base, d) && r.validated && r.ttl == 0)
  }

  predicate TtlPassed(r: Run) {
    r.validated && r.ttl > 0 && r.validatedAt + r.ttl <= r.revertedAt
  }

  /** How a run can end, and what it then leaves on the device and in the source of truth. */
  predicate Ending(r: Run, o: Outcome, base: Device, d: Device) {
    match o
    case Reverted =>
      TtlPassed(r) && d.config == base.config && d.status == if r.wroteActive then Active else Maintenance
    case Applied =>
      && r.validated && r.ttl == 0 && d.config == Merge(base.config, r.payload)
      && d.status == if r.wroteActive then Active else Maintenance
    case Refused => r.ttl < 0 && d == base
    case Crashed(AuditApplied) => r.validated && !r.wroteActive && d.status == Maintenance && OnPayload(r, base, d)
    case Crashed(_) => !r.wroteActive && d == base
    case Rejected(AuditDeployFailed) | Rejected(AuditValidationFailed) =>
      !r.wroteActive && d == base.(status := Maintenance)
    case Rejected(_) =>
      // The rollback or the revert itself failed.
      && r.pc in {Closed(Rejected(RollbackDeploy)), Closed(Rejected(RollbackValidation)),
                  Closed(Rejected(AuditRevertFailed))}
      && !r.wroteActive && d.status == Maintenance && (OnBackup(r, base, d) || OnPayload(r, base, d))
  }

  lemma StartHolds(payload: Json, ttl: int, d: Device, now: int)
    ensures Inv(Start(payload, ttl), d, d, now)
  {
  }

  lemma StepKeepsInv(r: Run, base: Device, d: Device, now: int, y: Reply)
    requires Inv(r, base, d, now)
    ensures var (r', d') := Step(r, d, now, y); Inv(r', base, d', now)
  {
    hide Merge;
    hide Deliver;
    hide Push;
    hide Landed;
    match r.pc
    case Closed(_) =>
    case At(stage) =>
      match stage
      case Deploy => PushCollapses(d, Update(r.payload), y.lost);
      case RollbackDeploy | RollbackValidation | Revert => PushCollapses(d, Replace(r.backup), y.lost);
      case AuditInitiated | Backup | StoreBackup | MarkMaintenance | AuditDeployFailed | Validate =>
      case AuditValidationFailed | AuditApplied | Sleep | AuditRevertFailed =>
      case MarkActiveReverted | AuditReverted | MarkActiveApplied =>
  }

  lemma TimeKeepsInv(r: Run, base: Device, d: Device, now: int, later: int)
    requires Inv(r, base, d, now) && now <= later
    ensures Inv(r, base, d, later)
  {
  }

  // --- which answers lead where -------------------------------------------------------------

  /** Initiated, backed up, stored and marked. */
  predicate Prepared(ys: seq<Answer>) {
    Ok(ys, 0) && Ok(ys, 1) && Ok(ys, 2) && Ok(ys, 3)
  }

  predicate Deployed(ys: seq<Answer>) {
    Prepared(ys) && Acked(ys, 4)
  }

  predicate DeployLost(ys: seq<Answer>) {
    Prepared(ys) && |ys| > 4 && !Acked(ys, 4)
  }

  predicate Invalid(ys: seq<Answer>) {
    Deployed(ys) && |ys| > 5 && !Ok(ys, 5)
  }

  predicate Validated(ys: seq<Answer>) {
    Deployed(ys) && Ok(ys, 5)
  }

  predicate Audited(ys: seq<Answer>) {
    Validated(ys) && Ok(ys, 6)
  }

  /** A run whose activities were answered by `ys` is awaiting this stage; the timer is not an activity. */
  predicate ToldAt(s: Stage, ttl: int, ys: seq<Answer>) {
    var n := |ys|;
    && ttl >= 0
    && match s
       case AuditInitiated => n == 0
       case Backup => n == 1 && Ok(ys, 0)
       case StoreBackup => n == 2 && Ok(ys, 0) && Ok(ys, 1)
       case MarkMaintenance => n == 3 && Ok(ys, 0) && Ok(ys, 1) && Ok(ys, 2)
       case Deploy => n == 4 && Prepared(ys)
       case RollbackDeploy => n == 5 && DeployLost(ys)
       case AuditDeployFailed => n == 6 && DeployLost(ys) && Acked(ys, 5)
       case Validate => n == 5 && Deployed(ys)
       case RollbackValidation => n == 6 && Invalid(ys)
       case AuditValidationFailed => n == 7 && Invalid(ys) && Acked(ys, 6)
       case AuditApplied => n == 6 && Validated(ys)
       case Sleep | Revert => n == 7 && Audited(ys) && ttl > 0
       case AuditRevertFailed => n == 8 && Audited(ys) && ttl > 0 && !Acked(ys, 7)
       case MarkActiveReverted => n == 8 && Audited(ys) && ttl > 0 && Acked(ys, 7)
       case AuditReverted => n == 9 && Audited(ys) && ttl > 0 && Acked(ys, 7)
       case MarkActiveApplied => n == 7 && Audited(ys) && ttl == 0
  }

  /** A run whose activities were answered by `ys` has closed with this outcome. */
  predicate ToldClosed(o: Outcome, ttl: int, ys: seq<Answer>) {
    var n := |ys|;
    match o
    case Refused => n == 0 && ttl < 0
    case Reverted => n == 10 && Audited(ys) && ttl > 0 && Acked(ys, 7)
    case Applied => n == 8 && Audited(ys) && ttl == 0
    case Rejected(RollbackDeploy) => n == 6 && ttl >= 0 && DeployLost(ys) && !Acked(ys, 5)
    case Rejected(AuditDeployFailed) => n == 7 && ttl >= 0 && DeployLost(ys) && Acked(ys, 5)
    case Rejected(RollbackValidation) => n == 7 && ttl >= 0 && Invalid(ys) && !Acked(ys, 6)
    case Rejected(AuditValidationFailed) => n == 8 && ttl >= 0 && Invalid(ys) && Acked(ys, 6)
    case Rejected(AuditRevertFailed) => n == 9 && Audited(ys) && ttl > 0 && !Acked(ys, 7)
    case Rejected(_) => false
    case Crashed(AuditInitiated) => n == 1 && ttl >= 0 && !Ok(ys, 0)
    case Crashed(Backup) => n == 2 && ttl >= 0 && Ok(ys, 0) && !Ok(ys, 1)
    case Crashed(StoreBackup) => n == 3 && ttl >= 0 && Ok(ys, 0) && Ok(ys, 1) && !Ok(ys, 2)
    case Crashed(MarkMaintenance) => n == 4 && ttl >= 0 && Ok(ys, 0) && Ok(ys, 1) && Ok(ys, 2) && !Ok(ys, 3)
    case Crashed(AuditApplied) => n == 7 && ttl >= 0 && Validated(ys) && !Ok(ys, 6)
    case Crashed(_) => false
  }

  predicate ToldPc(p: Pc, ttl: int, ys: seq<Answer>) {
    match p
    case At(s) => ToldAt(s, ttl, ys)
    case Closed(o) => ToldClosed(o, ttl, ys)
  }

  /** What the run remembers of its answers, and the time of the revert against that of the validation. */
  predicate Remembers(r: Run, ys: seq<Answer>, now: int) {
    && InOrder(ys, now)
    && (|ys| > 5 && Deployed(ys) ==> r.validated == Ok(ys, 5) && r.validatedAt == ys[5].at)
    && (|ys| > 6 && Audited(ys) ==> r.wakeAt == ys[6].at + r.ttl)
    && (r.pc == At(Revert) ==> r.wakeAt <= now)
    && (|ys| > 7 && Audited(ys) && r.ttl > 0 ==> ys[7].at >= ys[6].at + r.ttl && r.revertedAt == ys[7].at)
    && (r.pc == Closed(Applied) ==> r.wroteActive == Ok(ys, 7))
    && (|ys| > 8 && Audited(ys) && r.ttl > 0 && Acked(ys, 7) ==> r.wroteActive == Ok(ys, 8))
  }

  /** The answers account for run `r`, started with this payload and time to live. */
  predicate Told(r: Run, payload: Json, ttl: int, ys: seq<Answer>, now: int) {
    r.payload == payload && r.ttl == ttl && ToldPc(r.pc, ttl, ys) && Remembers(r, ys, now)
  }

  lemma StartTold(payload: Json, ttl: int, now: int)
    ensures Told(Start(payload, ttl), payload, ttl, [], now)
  {
  }

  predicate IsTimer(p: Pc) {
    p == At(Sleep)
  }

  lemma SleepTells(r: Run, payload: Json, ttl: int, d: Device, y: Reply, now: int, ys: seq<Answer>)
    requires Told(r, payload, ttl, ys, now) && IsTimer(r.pc)
    ensures Told(Step(r, d, now, y).0, payload, ttl, ys, now)
  {
  }

  /** Up to the validation. */
  predicate IsEarly(s: Stage) {
    s in {AuditInitiated, Backup, StoreBackup, MarkMaintenance, Deploy, RollbackDeploy, AuditDeployFailed}
  }

  lemma EarlyStepTells(r: Run, payload: Json, ttl: int, d: Device, y: Reply, now: int, ys: seq<Answer>)
    requires Told(r, payload, ttl, ys, now) && r.pc.At? && IsEarly(r.pc.stage)
    ensures Told(Step(r, d, now, y).0, payload, ttl, ys + [Answer(y, now)], now)
  {
    PushAcks(d, Update(r.payload), y.lost);
    PushAcks(d, Replace(r.backup), y.lost);
    OneMoreAnswer(ys, Answer(y, now));
    OneMoreInOrder(ys, Answer(y, now), now);
    hide Push;
    hide Ok;
    hide Acked;
    hide InOrder;
  }

  /** From the validation to the audit of the change. */
  predicate IsMiddle(s: Stage) {
    s in {Validate, RollbackValidation, AuditValidationFailed, AuditApplied}
  }

  lemma MiddleStepTells(r: Run, payload: Json, ttl: int, d: Device, y: Reply, now: int, ys: seq<Answer>)
    requires Told(r, payload, ttl, ys, now) && r.pc.At? && IsMiddle(r.pc.stage)
    ensures Told(Step(r, d, now, y).0, payload, ttl, ys + [Answer(y, now)], now)
  {
    PushAcks(d, Update(r.payload), y.lost);
    PushAcks(d, Replace(r.backup), y.lost);
    OneMoreAnswer(ys, Answer(y, now));
    OneMoreInOrder(ys, Answer(y, now), now);
    DeployedStays(ys, Answer(y, now));
    hide Push;
    hide Ok;
    hide Acked;
    hide InOrder;
    hide Deployed;
    hide DeployLost;
  }

  lemma DeployedStays(ys: seq<Answer>, a: Answer)
    requires |ys| >= 5
    ensures Deployed(ys + [a]) == Deployed(ys)
  {
    OneMoreAnswer(ys, a);
    hide Ok;
    hide Acked;
  }

  lemma LateStepTells(r: Run, payload: Json, ttl: int, d: Device, y: Reply, now: int, ys: seq<Answer>)
    requires Told(r, payload, ttl, ys, now) && r.pc.At?
    requires !IsEarly(r.pc.stage) && !IsMiddle(r.pc.stage) && !IsTimer(r.pc)
    ensures Told(Step(r, d, now, y).0, payload, ttl, ys + [Answer(y, now)], now)
  {
    PushAcks(d, Update(r.payload), y.lost);
    PushAcks(d, Replace(r.backup), y.lost);
    OneMoreAnswer(ys, Answer(y, now));
    OneMoreInOrder(ys, Answer(y, now), now);
    AuditedStays(ys, Answer(y, now));
    hide Push;
    hide Ok;
    hide Acked;
    hide InOrder;
    hide Audited;
    hide DeployLost;
    hide Invalid;
  }

  lemma AuditedStays(ys: seq<Answer>, a: Answer)
    requires |ys| >= 7
    ensures Audited(ys + [a]) == Audited(ys) && Deployed(ys + [a]) == Deployed(ys)
    ensures Audited(ys) ==> Deployed(ys)
  {
    OneMoreAnswer(ys, a);
    hide Ok;
    hide Acked;
  }

  lemma StepTells(r: Run, payload: Json, ttl: int, d: Device, y: Reply, now: int, ys: seq<Answer>)
    requires Told(r, payload, ttl, ys, now) && r.pc.At? && !IsTimer(r.pc)
    ensures Told(Step(r, d, now, y).0, payload, ttl, ys + [Answer(y, now)], now)
  {
    hide Told;
    hide Step;
    if IsEarly(r.pc.stage) {
      EarlyStepTells(r, payload, ttl, d, y, now, ys);
    } else if IsMiddle(r.pc.stage) {
      MiddleStepTells(r, payload, ttl, d, y, now, ys);
    } else {
      LateStepTells(r, payload, ttl, d, y, now, ys);
    }
  }

  /** The same answers never lead to two places, but for the timer that runs out by itself. */
  lemma ToldIsUnique(p: Pc, q: Pc, ttl: int, ys: seq<Answer>)
    requires ToldPc(p, ttl, ys) && ToldPc(q, ttl, ys)
    ensures p == q || {p, q} == {At(Sleep), At(Revert)}
  {
  }

  /** Where a run is, by its answers and its time to live; only whether the timer has fired is not in them. */
  lemma PlaceIff(r: Run, payload: Json, ttl: int, ys: seq<Answer>, now: int, p: Pc)
    requires Told(r, payload, ttl, ys, now)
    ensures p !in {At(Sleep), At(Revert)} ==> (r.pc == p <==> ToldPc(p, ttl, ys))
    ensures r.pc in {At(Sleep), At(Revert)} <==> ToldPc(At(Sleep), ttl, ys)
  {
    if ToldPc(p, ttl, ys) { ToldIsUnique(r.pc, p, ttl, ys); }
    if ToldPc(At(Sleep), ttl, ys) { ToldIsUnique(r.pc, At(Sleep), ttl, ys); }
    SleepOrRevert(ttl, ys);
    hide ToldPc;
    hide Remembers;
  }

  lemma SleepOrRevert(ttl: int, ys: seq<Answer>)
    ensures ToldPc(At(Sleep), ttl, ys) <==> ToldPc(At(Revert), ttl, ys)
  {
  }

  lemma TimeTells(r: Run, payload: Json, ttl: int, ys: seq<Answer>, now: int, later: int)
    requires Told(r, payload, ttl, ys, now) && now <= later
    ensures Told(r, payload, ttl, ys, later)
  {
    hide ToldPc;
  }
}
