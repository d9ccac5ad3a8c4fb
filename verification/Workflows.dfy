/** The run methods of the three saga workflows, as they are written: awaits in order, handlers for
    the failures they handle. Each is proved to drive the step machine of its workflow to the outcome
    it reports, having done to the device exactly what the machine says; and that outcome is the one that
    the answers to its awaits decide. */
module Workflows {
  import opened Json
  import opened Devices
  import opened Fleet
  import opened Worker
  import opened DriftMeasures
  import HygieneChecker
  import Network = NetworkChange
  import Emergency = EmergencyChange
  import Drift = DriftRemediation

  class NetworkChangeWorkflow {
    constructor () {}

    /** The workflow, on a world in which it has just been started. */
    method Run(w: World, rules: HygieneChecker.Rules) returns (outcome: Network.Outcome)
      requires w.Valid() && w.Agreed() && w.taken == [] && w.mirror.flow == NetworkFlow(Network.Start(rules))
      modifies w
      ensures w.Valid() && w.Agreed()
      ensures w.mirror.flow.NetworkFlow? && w.mirror.flow.network.pc == Network.Closed(outcome)
      ensures Network.Ending(w.mirror.flow.network, outcome, old(w.device), w.device)
      ensures forall o :: outcome == o <==> Network.ToldClosed(o, rules, HeardBy(w.start, w.taken))
    {
      StartFlowHolds(ChangeRequest(rules), w.device, w.clock);
      outcome := Execute(w, rules);
      hide Play;
      hide HeardBy;
      hide SentBy;
      hide Network.Ending;
      hide Network.ToldClosed;
      PlayKeepsInv(w.start, w.start.device, w.taken);
      PlayTold(ChangeRequest(rules), w.start, w.taken);
      forall o ensures outcome == o <==> Network.ToldClosed(o, rules, HeardBy(w.start, w.taken)) {
        Network.PlaceIff(w.mirror.flow.network, rules, HeardBy(w.start, w.taken), Network.Closed(o));
      }
    }

    method Execute(w: World, rules: HygieneChecker.Rules) returns (outcome: Network.Outcome)
      requires w.Valid() && w.Agreed() && w.mirror.flow == NetworkFlow(Network.Start(rules))
      modifies w
      ensures w.Valid() && w.Agreed() && old(w.taken) <= w.taken
      ensures w.mirror.flow.NetworkFlow? && w.mirror.flow.network.pc == Network.Closed(outcome)
    {
      hide Push;
      hide Merge;
      hide Play;
      var b := w.Perform(); // backup_running_config
      if !b.reply.ok { return Network.Crashed(Network.Backup); }
      var backup := w.device.config;
      b := w.Perform(); // store_backup
      if !b.reply.ok { return Network.Crashed(Network.StoreBackup); }
      b := w.Perform(); // fetch_device_config
      if !b.reply.ok || !b.reply.renders { return Network.Crashed(Network.FetchIntent); }
      var bgp, payload := b.reply.bgp, b.reply.doc;
      var verdict := HygieneChecker.RunHygieneChecks(Some(bgp), Some(payload), rules.validIp, rules.validNetwork);
      if verdict == HygieneChecker.Raise { return Network.Crashed(Network.FetchIntent); }
      if verdict == HygieneChecker.Fail {
        b := w.UpdateDeviceStatus(Maintenance);
        return if b.reply.ok then Network.Rejected(Network.MarkUnhygienic) else Network.Crashed(Network.MarkUnhygienic);
      }
      outcome := DeployAndValidate(w, backup, payload);
    }

    method DeployAndValidate(w: World, backup: Json, payload: Json) returns (outcome: Network.Outcome)
      requires w.Valid() && w.Agreed()
      requires w.mirror.flow.NetworkFlow? && w.mirror.flow.network.pc == Network.At(Network.Deploy)
      requires w.mirror.flow.network.backup == backup && w.mirror.flow.network.payload == payload
      modifies w
      ensures w.Valid() && w.Agreed() && old(w.taken) <= w.taken
      ensures w.mirror.flow.NetworkFlow? && w.mirror.flow.network.pc == Network.Closed(outcome)
    {
      hide Push;
      hide Merge;
      hide Play;
      var b, deployed := w.GnmiSet(Update(payload));
      if !deployed {
        outcome := RollBack(w, backup, Network.RollbackDeploy, Network.MarkDeployFailed);
        return;
      }
      b := w.Perform(); // validate_bgp
      if b.reply.ok {
        b := w.Perform(); // validate_interfaces
      }
      if !b.reply.ok {
        outcome := RollBack(w, backup, Network.RollbackValidation, Network.MarkValidationFailed);
        return;
      }
      b := w.UpdateDeviceStatus(Active);
      return if b.reply.ok then Network.Success else Network.Crashed(Network.MarkActive);
    }

    /** The two failure handlers: restore the backup, mark the device, raise. */
    method RollBack(w: World, backup: Json, rollback: Network.Stage, mark: Network.Stage)
      returns (outcome: Network.Outcome)
      requires w.Valid() && w.Agreed()
      requires (rollback, mark) in {(Network.RollbackDeploy, Network.MarkDeployFailed),
                                    (Network.RollbackValidation, Network.MarkValidationFailed)}
      requires w.mirror.flow.NetworkFlow? && w.mirror.flow.network.pc == Network.At(rollback)
      requires w.mirror.flow.network.backup == backup
      modifies w
      ensures w.Valid() && w.Agreed() && old(w.taken) <= w.taken
      ensures w.mirror.flow.NetworkFlow? && w.mirror.flow.network.pc == Network.Closed(outcome)
    {
      hide Push;
      hide Merge;
      hide Play;
      var b, restored := w.GnmiSet(Replace(backup));
      if !restored { return Network.Crashed(rollback); }
      b := w.UpdateDeviceStatus(Maintenance);
      return if b.reply.ok then Network.Rejected(mark) else Network.Crashed(mark);
    }
  }

  class EmergencyChangeWorkflow {
    constructor () {}

    /** The workflow, on a world in which it has just been started. */
    method Run(w: World, config: Json, ttlSeconds: int) returns (outcome: Emergency.Outcome)
      requires w.Valid() && w.Agreed() && w.taken == []
      requires w.mirror.flow == EmergencyFlow(Emergency.Start(config, ttlSeconds))
      modifies w
      ensures w.Valid() && w.Agreed()
      ensures w.mirror.flow.EmergencyFlow? && w.mirror.flow.emergency.pc == Emergency.Closed(outcome)
      ensures Emergency.Ending(w.mirror.flow.emergency, outcome, old(w.device), w.device)
      ensures forall o :: outcome == o <==> Emergency.ToldClosed(o, ttlSeconds, HeardBy(w.start, w.taken))
    {
      StartFlowHolds(EmergencyRequest(config, ttlSeconds), w.device, w.clock);
      outcome := Execute(w, config, ttlSeconds);
      hide Play;
      hide HeardBy;
      hide SentBy;
      hide Emergency.Ending;
      hide Emergency.ToldClosed;
      PlayKeepsInv(w.start, w.start.device, w.taken);
      PlayTold(EmergencyRequest(config, ttlSeconds), w.start, w.taken);
      ghost var ys := HeardBy(w.start, w.taken);
      forall o ensures outcome == o <==> Emergency.ToldClosed(o, ttlSeconds, ys) {
        Emergency.PlaceIff(w.mirror.flow.emergency, config, ttlSeconds, ys, w.mirror.clock, Emergency.Closed(o));
      }
    }

    method Execute(w: World, config: Json, ttlSeconds: int) returns (outcome: Emergency.Outcome)
      requires w.Valid() && w.Agreed() && w.mirror.flow == EmergencyFlow(Emergency.Start(config, ttlSeconds))
      modifies w
      ensures w.Valid() && w.Agreed() && old(w.taken) <= w.taken
      ensures w.mirror.flow.EmergencyFlow? && w.mirror.flow.emergency.pc == Emergency.Closed(outcome)
    {
      hide Push;
      hide Merge;
      hide Play;
      if ttlSeconds < 0 { return Emergency.Refused; }
      var b := w.Perform(); // audit: initiated
      if !b.reply.ok { return Emergency.Crashed(Emergency.AuditInitiated); }
      b := w.Perform(); // backup_running_config
      if !b.reply.ok { return Emergency.Crashed(Emergency.Backup); }
      var backup := w.device.config;
      b := w.Perform(); // store_backup
      if !b.reply.ok { return Emergency.Crashed(Emergency.StoreBackup); }
      b := w.UpdateDeviceStatus(Maintenance);
      if !b.reply.ok { return Emergency.Crashed(Emergency.MarkMaintenance); }
      outcome := DeployAndValidate(w, config, ttlSeconds, backup);
    }

    method DeployAndValidate(w: World, config: Json, ttlSeconds: int, backup: Json)
      returns (outcome: Emergency.Outcome)
      requires w.Valid() && w.Agreed()
      requires w.mirror.flow == EmergencyFlow(
                 Emergency.Run(Emergency.At(Emergency.Deploy), ttlSeconds, config, backup, false, 0, 0, 0, false))
      modifies w
      ensures w.Valid() && w.Agreed() && old(w.taken) <= w.taken
      ensures w.mirror.flow.EmergencyFlow? && w.mirror.flow.emergency.pc == Emergency.Closed(outcome)
    {
      hide Push;
      hide Merge;
      hide Play;
      var b, deployed := w.GnmiSet(Update(config));
      if !deployed {
        outcome := RollBack(w, backup, Emergency.RollbackDeploy, Emergency.AuditDeployFailed);
        return;
      }
      b := w.Perform(); // validate_bgp
      if !b.reply.ok {
        outcome := RollBack(w, backup, Emergency.RollbackValidation, Emergency.AuditValidationFailed);
        return;
      }
      b := w.Perform(); // audit: applied
      if !b.reply.ok { return Emergency.Crashed(Emergency.AuditApplied); }
      if ttlSeconds > 0 {
        Sleep(w, w.clock + ttlSeconds);
        outcome := RevertToBackup(w, backup);
        return;
      }
      b := w.UpdateDeviceStatus(Active); // a failure is only logged
      return Emergency.Applied;
    }

    /** The two failure handlers: try to restore the backup and to audit it, then raise regardless. */
    method RollBack(w: World, backup: Json, rollback: Emergency.Stage, audit: Emergency.Stage)
      returns (outcome: Emergency.Outcome)
      requires w.Valid() && w.Agreed()
      requires (rollback, audit) in {(Emergency.RollbackDeploy, Emergency.AuditDeployFailed),
                                     (Emergency.RollbackValidation, Emergency.AuditValidationFailed)}
      requires w.mirror.flow.EmergencyFlow? && w.mirror.flow.emergency.pc == Emergency.At(rollback)
      requires w.mirror.flow.emergency.backup == backup
      modifies w
      ensures w.Valid() && w.Agreed() && old(w.taken) <= w.taken
      ensures w.mirror.flow.EmergencyFlow? && w.mirror.flow.emergency.pc == Emergency.Closed(outcome)
    {
      hide Push;
      hide Merge;
      hide Play;
      var b, restored := w.GnmiSet(Replace(backup));
      if !restored { return Emergency.Rejected(rollback); }
      b := w.Perform();
      return Emergency.Rejected(audit);
    }

    /** The durable timer. */
    method Sleep(w: World, wakeAt: int)
      requires w.Valid() && w.Agreed()
      requires w.mirror.flow.EmergencyFlow? && w.mirror.flow.emergency.pc == Emergency.At(Emergency.Sleep)
      requires w.mirror.flow.emergency.wakeAt == wakeAt
      modifies w
      ensures w.Valid() && w.Agreed() && old(w.taken) <= w.taken && w.clock >= wakeAt
      ensures w.mirror.flow == EmergencyFlow(old(w.mirror.flow).emergency.(pc := Emergency.At(Emergency.Revert)))
    {
      hide Push;
      hide Merge;
      hide Play;
      var awake := false;
      while !awake
        invariant w.Valid() && w.Agreed() && old(w.taken) <= w.taken
        invariant awake ==> w.clock >= wakeAt
        invariant w.mirror.flow == EmergencyFlow(old(w.mirror.flow).emergency.(
                    pc := Emergency.At(if awake then Emergency.Revert else Emergency.Sleep)))
        decreases |w.script|, !awake
      {
        var _ := w.Await(if w.clock < wakeAt then wakeAt - w.clock else 0);
        awake := w.clock >= wakeAt;
      }
    }

    method RevertToBackup(w: World, backup: Json) returns (outcome: Emergency.Outcome)
      requires w.Valid() && w.Agreed()
      requires w.mirror.flow.EmergencyFlow? && w.mirror.flow.emergency.pc == Emergency.At(Emergency.Revert)
      requires w.mirror.flow.emergency.backup == backup
      modifies w
      ensures w.Valid() && w.Agreed() && old(w.taken) <= w.taken
      ensures w.mirror.flow.EmergencyFlow? && w.mirror.flow.emergency.pc == Emergency.Closed(outcome)
    {
      hide Push;
      hide Merge;
      hide Play;
      var b, restored := w.GnmiSet(Replace(backup));
      if !restored {
        b := w.Perform(); // audit: revert failed; a failure is only logged
        return Emergency.Rejected(Emergency.AuditRevertFailed);
      }
      b := w.UpdateDeviceStatus(Active); // a failure is only logged
      b := w.Perform(); // audit: reverted; likewise
      return Emergency.Reverted;
    }
  }

  class DriftRemediationWorkflow {
    constructor () {}

    /** The workflow, on a world in which it has just been started. */
    method Run(w: World) returns (outcome: Drift.Outcome)
      requires w.Valid() && w.Agreed() && w.taken == [] && w.mirror.flow == DriftFlow(Drift.Start())
      modifies w
      ensures w.Valid() && w.Agreed()
      ensures w.mirror.flow.DriftFlow? && w.mirror.flow.drift.pc == Drift.Closed(outcome)
      ensures Drift.Ending(w.mirror.flow.drift, outcome, old(w.device), w.device)
      ensures var ys := HeardBy(w.start, w.taken);
              forall o :: outcome == o <==>
                Drift.ToldClosed(o, Drift.ComparesTo(old(w.device), ys), Drift.ActionOn(old(w.device), ys), ys)
    {
      StartFlowHolds(DriftRequest, w.device, w.clock);
      outcome := Execute(w);
      hide Play;
      hide HeardBy;
      hide SentBy;
      hide Drift.Ending;
      hide Drift.ToldClosed;
      hide Drift.ComparesTo;
      hide Drift.ActionOn;
      PlayKeepsInv(w.start, w.start.device, w.taken);
      PlayTold(DriftRequest, w.start, w.taken);
      ghost var ys, base := HeardBy(w.start, w.taken), old(w.device);
      forall o ensures outcome == o <==>
                 Drift.ToldClosed(o, Drift.ComparesTo(base, ys), Drift.ActionOn(base, ys), ys)
      {
        Drift.PlaceIff(w.mirror.flow.drift, base, ys, Drift.Closed(o));
      }
    }

    method Execute(w: World) returns (outcome: Drift.Outcome)
      requires w.Valid() && w.Agreed() && w.mirror.flow == DriftFlow(Drift.Start())
      modifies w
      ensures w.Valid() && w.Agreed() && old(w.taken) <= w.taken
      ensures w.mirror.flow.DriftFlow? && w.mirror.flow.drift.pc == Drift.Closed(outcome)
    {
      hide Push;
      hide Merge;
      hide Play;
      hide SeverityOf;
      var b := w.Perform(); // fetch_device_config
      if !b.reply.ok { return Drift.Crashed(Drift.FetchIntent); }
      var status := w.device.status;
      b := w.Perform(); // render_intended_config
      if !b.reply.ok { return Drift.Crashed(Drift.Render); }
      var intended := b.reply.doc;
      b := w.Perform(); // fetch_running_config
      if !b.reply.ok { return Drift.Crashed(Drift.FetchRunning); }
      var running := w.device.config;
      if intended != running && !(intended.Obj? && running.Obj?) { return Drift.Crashed(Drift.FetchRunning); }
      var drift := ClassifyDrift(Drift.Fields(intended), Drift.Fields(running));
      var action := DecideDriftAction(drift.severity, status);
      if action == Nothing { return Drift.InSync; }
      outcome := Respond(w, intended, action);
    }

    /** Drift was detected: audit it, then act as the policy says. */
    method Respond(w: World, intended: Json, action: Action) returns (outcome: Drift.Outcome)
      requires w.Valid() && w.Agreed()
      requires w.mirror.flow.DriftFlow? && w.mirror.flow.drift.pc == Drift.At(Drift.AuditDetected)
      requires w.mirror.flow.drift.intended == intended && Drift.ActionOf(w.mirror.flow.drift) == action != Nothing
      modifies w
      ensures w.Valid() && w.Agreed() && old(w.taken) <= w.taken
      ensures w.mirror.flow.DriftFlow? && w.mirror.flow.drift.pc == Drift.Closed(outcome)
    {
      hide Push;
      hide Merge;
      hide Play;
      hide SeverityOf;
      var b := w.Perform(); // audit: detected
      if !b.reply.ok { return Drift.Crashed(Drift.AuditDetected); }
      if action == SuppressMaintenance {
        b := w.Perform();
        return if b.reply.ok then Drift.Suppressed else Drift.Crashed(Drift.AuditSuppressed);
      }
      if action == LogOnly {
        b := w.Perform();
        return if b.reply.ok then Drift.Logged else Drift.Crashed(Drift.AuditLogged);
      }
      outcome := Remediate(w, intended);
    }

    method Remediate(w: World, intended: Json) returns (outcome: Drift.Outcome)
      requires w.Valid() && w.Agreed()
      requires w.mirror.flow.DriftFlow? && w.mirror.flow.drift.pc == Drift.At(Drift.Backup)
      requires w.mirror.flow.drift.intended == intended
      modifies w
      ensures w.Valid() && w.Agreed() && old(w.taken) <= w.taken
      ensures w.mirror.flow.DriftFlow? && w.mirror.flow.drift.pc == Drift.Closed(outcome)
    {
      hide Push;
      hide Merge;
      hide Play;
      hide Drift.ActionOf;
      var b := w.Perform(); // backup_running_config
      if !b.reply.ok { return Drift.Crashed(Drift.Backup); }
      b := w.Perform(); // store_backup
      if !b.reply.ok { return Drift.Crashed(Drift.StoreBackup); }
      var deployed;
      b, deployed := w.GnmiSet(Update(intended));
      if !deployed {
        outcome := CleanUp(w, Drift.MarkDeployFailed, Drift.AuditDeployFailed);
        return;
      }
      outcome := ValidateAndFinish(w);
    }

    method ValidateAndFinish(w: World) returns (outcome: Drift.Outcome)
      requires w.Valid() && w.Agreed()
      requires w.mirror.flow.DriftFlow? && w.mirror.flow.drift.pc == Drift.At(Drift.ValidateBgp)
      modifies w
      ensures w.Valid() && w.Agreed() && old(w.taken) <= w.taken
      ensures w.mirror.flow.DriftFlow? && w.mirror.flow.drift.pc == Drift.Closed(outcome)
    {
      hide Push;
      hide Merge;
      hide Play;
      hide Drift.ActionOf;
      var b := w.Perform(); // validate_bgp
      if b.reply.ok {
        b := w.Perform(); // validate_interfaces
      }
      if !b.reply.ok {
        outcome := CleanUp(w, Drift.MarkValidationFailed, Drift.AuditValidationFailed);
        return;
      }
      outcome := Finish(w);
    }

    method Finish(w: World) returns (outcome: Drift.Outcome)
      requires w.Valid() && w.Agreed()
      requires w.mirror.flow.DriftFlow? && w.mirror.flow.drift.pc == Drift.At(Drift.MarkActive)
      modifies w
      ensures w.Valid() && w.Agreed() && old(w.taken) <= w.taken
      ensures w.mirror.flow.DriftFlow? && w.mirror.flow.drift.pc == Drift.Closed(outcome)
    {
      hide Push;
      hide Merge;
      hide Play;
      hide Drift.ActionOf;
      var b := w.UpdateDeviceStatus(Active);
      if !b.reply.ok { return Drift.Crashed(Drift.MarkActive); }
      b := w.Perform(); // audit: remediated
      return if b.reply.ok then Drift.Remediated else Drift.Crashed(Drift.AuditRemediated);
    }

    /** The two failure handlers: try to mark the device and to audit it, then raise regardless. The
        device is not rolled back. */
    method CleanUp(w: World, mark: Drift.Stage, audit: Drift.Stage) returns (outcome: Drift.Outcome)
      requires w.Valid() && w.Agreed()
      requires (mark, audit) in {(Drift.MarkDeployFailed, Drift.AuditDeployFailed),
                                 (Drift.MarkValidationFailed, Drift.AuditValidationFailed)}
      requires w.mirror.flow.DriftFlow? && w.mirror.flow.drift.pc == Drift.At(mark)
      modifies w
      ensures w.Valid() && w.Agreed() && old(w.taken) <= w.taken
      ensures w.mirror.flow.DriftFlow? && w.mirror.flow.drift.pc == Drift.Closed(outcome)
    {
      hide Push;
      hide Merge;
      hide Play;
      hide Drift.ActionOf;
      var b := w.UpdateDeviceStatus(Maintenance);
      if !b.reply.ok { return Drift.Rejected(mark); }
      b := w.Perform();
      return Drift.Rejected(audit);
    }
  }
}
