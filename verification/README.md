# Device-change orchestration

A Dafny model of how this platform changes network devices, and proofs of what it keeps. A device is
changed by four Temporal workflows: the standard network change, the emergency change with its automatic
revert, drift remediation, and the time-bounded operational override. They are serialised by one workflow
identifier per device and built on gNMI backup, SET update (merge) and SET replace. Around them the model
covers the backup extraction, the two drift measures, the line-protocol writer, the two configuration
compilers with the checks that their output must pass, the link addresses of a provisioned device, and the
seeding of the source of truth.

`dafny verify dfyconfig.toml` checks the whole project.

## How it is put together

- `Json` and `Devices`: configurations as trees, SET update as a right-biased merge of objects, SET replace
  as assignment (section 3.4.4 of the gNMI specification), and a write under the device retry policy, where
  each failed attempt may still have landed.
- `NetworkChange`, `EmergencyChange`, `DriftRemediation`, `OperationalOverride`: one step machine for each
  workflow. A step is one awaited activity together with the workflow code up to the next await. `Ending`
  (`Left` for the override) lists how a run can close and what it then leaves behind.
  Beside it stands, for each point and each outcome, the condition on the answers that the run's activities
  have had (`ToldAt`, `ToldClosed`; `OverrideAnswers` for the override), and the proof that a run is there if
  and only if its answers meet it. The verdict of the hygiene gate is computed from the payloads answered.
- `Fleet`: any number of runs over any number of devices, interleaved step by step with start requests,
  signals and the clock. `FleetSafety` draws the consequences for whole runs: isolation, how runs end, the
  override window and what a revert leaves; `Quarantine` those across runs on one device. `FleetEvents` says
  over whole histories when the active gauge drains and what an override does after its safety check, and
  `FleetAnswers` carries the conditions on answers, signals and times to every run of every reachable fleet.
- `Worker`, `Workflows`, `OverrideWorkflow`, `Triggers`: the workflow classes and the start function as they
  are written, with their awaits, handlers, loops and fields. A `World` supplies the answer of every await
  from a script that the caller chooses freely. Each `Run` is proved to drive its step machine to the
  outcome that the answers decide; a run played on a world is a run of the fleet (`Worker.PlayIsFleetRun`),
  and any run of an interleaved fleet is played by some script, up to the metrics that it shares
  (`Worker.FleetRunIsPlay`).
- `DriftMeasures` (with `Strings`), `GnmiBackup`, `LineProtocol`, `FabricLinks`: the four smaller cores.
- `InfrahubGraph`, `SrlinuxTransforms`, `InfrahubClient`, `CompilerAgreement`: the two compilers, written
  apart, and their agreement. `HygieneChecker`, `InterfaceConsistency`, `GateAgreement`: the gate, the
  source-of-truth check, and what they say about compiled output.
- `SeedStore`, `Seeding`, `SeedScript`: the store, what each section of the seed data asks for, and the
  seeding loops. `SeedEntries` says which objects and references the seed data describes, and
  `SeedReferences` that a run which returns creates no other object and leaves out only refused interfaces
  and sessions.

## Where the code falls short of the obvious claim

Each of these is stated with its exact condition.

- An extension that arrives after the wait has ended, while the override is still on the device, is queued
  and never served. In a run that returns OVERRIDE_REVERTED these are exactly the extensions left pending
  (`FleetSafety.OverrideWindow`, `Counterexamples.LateExtensionIsLost`); an early termination also drops what
  was pending before it.
- The active gauge does not always return to zero, even when no exception escapes a run unhandled: when
  `record_override_revert_failure` itself fails, the run stays counted (`FleetEvents.GaugeDrainsIff`,
  `Counterexamples.LostRecordLeaks`).
- A remediation whose last audit event fails raises although it has already set the device active, so that
  device is not in quarantine (`Quarantine.RaiseQuarantinesIff`, `Counterexamples.LateAuditLiftsQuarantine`).
- An explicit null section on one side that is missing on the other is drift without a diff line, and is
  called cosmetic, while the score counts it (`DriftMeasures.LinesMatchScoreIff`,
  `DriftMeasures.NullGapExample`). The comment in the classifier says that missing keys are critical.
- The two compilers disagree on the router identifier when the deciding address is empty or begins with its
  slash, where the transform emits an empty one and the client looks further or raises
  (`CompilerAgreement.BgpConfigsAgreeIff`, `CompilerAgreement.RouterIdsDiffer`,
  `CompilerAgreement.RouterIdMissing`).
- Escaping a tag does not escape a newline, so a body splits back into its lines only when the tags are free
  of newlines (`LineProtocol.BodyReadsIff`, `LineProtocol.NewlineBreaksBody`).
- The override and the remediation converge by merging: what lies outside the intent stays
  (`FleetSafety.RevertedIff` and `DriftRemediation.AfterRemediation` say exactly when nothing does,
  `Counterexamples.RevertLeavesBanner`).

## Model

| member | source | states |
|---|---|---|
| `Json.MergeLookup` | backend/network_synapse/scripts/deploy_configs.py:21-27 | what a SET update does path by path: a path the payload does not decide keeps its old value, every other leaf path reads as in the payload, objects of the payload stay objects |
| `Json.MergeHonours` | backend/network_synapse/scripts/deploy_configs.py:23-24 | after an update the configuration agrees with the payload on every path the payload names |
| `Json.MergeIdempotent` | backend/network_synapse/scripts/deploy_configs.py:49-52 | applying the same update twice is applying it once |
| `Json.RollbackByMergeIff` | workers/synapse_workers/activities/config_deployment_activities.py:43-50 | rolling back by merging the backup restores it if and only if the change put no new key into an object of the backup; this is why rollback replaces |
| `Json.UpdateLeavesPayloadIff` | backend/network_synapse/scripts/deploy_configs.py:21-27 | an update leaves exactly the payload if and only if the old configuration had no path outside it |
| `Json.ErasesIff` | workers/synapse_workers/activities/override_activities.py:71-92 | an update after another one leaves what it would have left alone if and only if the first had changed no path that the second does not decide |
| `Devices.DeliverCollapses` | backend/network_synapse/scripts/deploy_configs.py:49-59 | any number of lost, landed and retried attempts of one write amount to that write or to nothing, and to nothing only when no attempt landed |
| `Devices.PushCollapses` | workers/synapse_workers/activities/config_deployment_activities.py:23-35 | the same on a device under the policy of three attempts, with the acknowledgement |
| `Devices.RollbackRestores` | workers/synapse_workers/activities/config_deployment_activities.py:39-57 | an acknowledged rollback restores the backup whatever the deploy attempts left behind |
| `NetworkChange.StepKeepsInv` | workers/synapse_workers/workflows/network_change_workflow.py:37-157 | every answer keeps the invariant that relates device, backup, payload and validations to the point of the run; at the end it is one of the four endings |
| `NetworkChange.StepTells` | workers/synapse_workers/workflows/network_change_workflow.py:37-157 | every answer leads to the point or outcome that the list of the answers so far allows: for each there is a condition on those answers, with the verdict of the gate computed from the payloads that were answered |
| `NetworkChange.PlaceIff` | workers/synapse_workers/workflows/network_change_workflow.py:37-157 | and to no other: a run is at a point, or has closed with an outcome, if and only if its answers meet that condition |
| `NetworkChange.WritesOnlyIfCleared` | workers/synapse_workers/workflows/network_change_workflow.py:76-97 | the configuration of the device has changed only if the fetch returned, rendered, and the gate passed both payloads |
| `EmergencyChange.StepKeepsInv` | workers/synapse_workers/workflows/emergency_change_workflow.py:72-231 | the same for the emergency change: the validation has returned before the change counts as applied and before the sleep, and has failed where it is rolled back; the time to live has passed before a revert; the device is in maintenance from the mark on, and `active` is written only after a returned outcome is certain |
| `EmergencyChange.StepTells` | workers/synapse_workers/workflows/emergency_change_workflow.py:72-231 | every answer leads to the point or outcome that the answers so far allow, and the run remembers what they said of its validation, times and status write |
| `EmergencyChange.PlaceIff` | workers/synapse_workers/workflows/emergency_change_workflow.py:134-231 | and to no other: the validation rollback is reached if and only if the validation raised, EMERGENCY_APPLIED if and only if it returned, its audit was good and there was no time to live, and so for each point and outcome; only the firing of the timer is not in the answers |
| `EmergencyChange.TimeKeepsInv` | workers/synapse_workers/workflows/emergency_change_workflow.py:166-168 | time passing during the sleep keeps that invariant |
| `DriftRemediation.StepKeepsInv` | workers/synapse_workers/workflows/drift_remediation_workflow.py:157-304 | the same for drift remediation, where a failed remediation is not rolled back and both validators have returned before the device is marked active |
| `DriftRemediation.StepTells` | workers/synapse_workers/workflows/drift_remediation_workflow.py:157-304 | every answer leads to the point or outcome that the answers so far allow, given the verdicts of the classifier and the policy |
| `DriftRemediation.PlaceIff` | workers/synapse_workers/workflows/drift_remediation_workflow.py:157-304 | and to no other, with those verdicts computed from the intent that was answered and the device that was found: DRIFT_REMEDIATED if and only if the policy said so and every answer, both validators included, was good |
| `DriftRemediation.InvalidNeverActive` | workers/synapse_workers/workflows/drift_remediation_workflow.py:257-289 | an acknowledged remediation of which a validator failed never marks its device active; the device is in maintenance if and only if the status write after that validator is answered and good |
| `DriftRemediation.MaintenanceNeverWrites` | workers/synapse_workers/workflows/drift_remediation_workflow.py:96-112 | a run on a device in maintenance never reaches a stage from which it writes |
| `DriftRemediation.ResultsMean` | workers/synapse_workers/workflows/drift_remediation_workflow.py:96-112 | NO_DRIFT, DRIFT_LOGGED and DRIFT_SUPPRESSED_MAINTENANCE leave the device untouched; each result tells the severity and status that led to it; a remediated device agrees with the intent on every path the intent names, and both validators returned |
| `DriftRemediation.AfterRemediation` | workers/synapse_workers/workflows/drift_remediation_workflow.py:231-239 | remediating again changes nothing, and a re-check finds no drift if and only if the drifted configuration had no path outside the intent |
| `Workflows.NetworkChangeWorkflow.Run` | workers/synapse_workers/workflows/network_change_workflow.py:31-157 | run as a whole, for every script of answers: ends in one of the four endings of the step machine, having done to the device what the machine says, with an outcome if and only if the answers it took meet the condition of that outcome |
| `Workflows.NetworkChangeWorkflow.Execute` | workers/synapse_workers/workflows/network_change_workflow.py:37-86 | backup, fetch, render and `run_hygiene_checks` drive the step machine to the outcome they report |
| `Workflows.NetworkChangeWorkflow.DeployAndValidate` | workers/synapse_workers/workflows/network_change_workflow.py:89-157 | deploy, validate and the final status drive the step machine to the outcome they report |
| `Workflows.NetworkChangeWorkflow.RollBack` | workers/synapse_workers/workflows/network_change_workflow.py:96-114 | both failure handlers drive the step machine to the outcome they report |
| `Workflows.EmergencyChangeWorkflow.Run` | workers/synapse_workers/workflows/emergency_change_workflow.py:59-231 | the same for the emergency change, its outcome decided by its answers and its time to live |
| `Workflows.EmergencyChangeWorkflow.DeployAndValidate` | workers/synapse_workers/workflows/emergency_change_workflow.py:108-231 | deploy, validate, audit, timer and final status drive the step machine |
| `Workflows.EmergencyChangeWorkflow.RollBack` | workers/synapse_workers/workflows/emergency_change_workflow.py:115-131 | both failure handlers raise whatever their clean-up does |
| `Workflows.EmergencyChangeWorkflow.Sleep` | workers/synapse_workers/workflows/emergency_change_workflow.py:166-168 | the durable timer returns no earlier than its deadline |
| `Workflows.EmergencyChangeWorkflow.RevertToBackup` | workers/synapse_workers/workflows/emergency_change_workflow.py:172-215 | the automatic revert and its housekeeping drive the step machine |
| `Workflows.DriftRemediationWorkflow.Run` | workers/synapse_workers/workflows/drift_remediation_workflow.py:141-304 | the same for drift remediation, with the classifier and the policy called in the run, its outcome decided by its answers and the device it found |
| `Workflows.DriftRemediationWorkflow.Respond` | workers/synapse_workers/workflows/drift_remediation_workflow.py:187-216 | audit and policy branches drive the step machine |
| `Workflows.DriftRemediationWorkflow.Remediate` | workers/synapse_workers/workflows/drift_remediation_workflow.py:218-255 | backup and deploy drive the step machine, without rollback on failure |
| `Workflows.DriftRemediationWorkflow.CleanUp` | workers/synapse_workers/workflows/drift_remediation_workflow.py:240-255 | status and audit after a failure are best effort, and the run raises regardless |
| `OperationalOverride.DrainKeepsWindow` | workers/synapse_workers/workflows/operational_override_workflow.py:286-309 | the inner loop keeps extensions conserved and the end of the window accounted for, and lets the wait end only when nothing is pending and the clock has reached the end |
| `OperationalOverride.LoopHeadKeepsWindow` | workers/synapse_workers/workflows/operational_override_workflow.py:284-319 | so does the outer loop, whose passes stay within the extensions consumed plus two |
| `OperationalOverride.StepKeepsTime` | workers/synapse_workers/workflows/operational_override_workflow.py:126-282 | every activity, timer firing or blocked wait keeps the account of the window |
| `OperationalOverride.HandleKeepsTime` | workers/synapse_workers/workflows/operational_override_workflow.py:84-98 | so does every signal, at whatever await it arrives |
| `OperationalOverride.StepAdvances` | workers/synapse_workers/workflows/operational_override_workflow.py:287-289 | no step loses an extension: extensions move first-in first-out from pending to consumed, and the end of the window never moves back |
| `OperationalOverride.StepKeepsDevice` | workers/synapse_workers/workflows/operational_override_workflow.py:151-282 | at every point the device is the base, the base with the override merged in, or that with the intent merged in, as the stage says; the device status is never touched; and the safety check has said what the stage says |
| `OverrideAnswers.StepTells` | workers/synapse_workers/workflows/operational_override_workflow.py:126-282 | every answer to an activity leads to the point or outcome that the answers so far allow, given the extensions consumed and the reason the wait ended; the run remembers from them its flags, its intent and its times |
| `OverrideAnswers.TimerTells` | workers/synapse_workers/workflows/operational_override_workflow.py:311-319 | the polls of the wait lead where those answers allow as well |
| `OverrideAnswers.SignalTells` | workers/synapse_workers/workflows/operational_override_workflow.py:84-98 | every signal is received, whenever it comes: extensions in order, the last termination with its reason, and nothing else moves |
| `OverrideAnswers.OutcomeIff` | workers/synapse_workers/workflows/operational_override_workflow.py:100-282 | a run has closed with an outcome if and only if its answers meet the condition of that outcome: reverting needs the answer yes to the safety check, the unsafe error the answer no |
| `OperationalOverride.StepCounts` | workers/synapse_workers/activities/override_activities.py:51-61 | each metric moves exactly as the run moves between applied, reverted and given up; no run is both reverted and given up, nor either without having been applied |
| `OperationalOverride.RevertLeavesResidue` | workers/synapse_workers/activities/override_activities.py:86-92 | after the revert the device agrees with the intent where the intent speaks, and reads as under the override where it does not |
| `OperationalOverride.RevertErasesIff` | workers/synapse_workers/activities/override_activities.py:71-92 | the revert leaves the device as if the override had never been applied if and only if the override had changed no path that the intent does not decide, and on the bare intent if and only if the overridden configuration had no path outside it |
| `OverrideWorkflow.OperationalOverrideWorkflow.constructor` | workers/synapse_workers/workflows/operational_override_workflow.py:79-82 | no termination, no reason, no extensions |
| `OverrideWorkflow.OperationalOverrideWorkflow.TerminateEarly` | workers/synapse_workers/workflows/operational_override_workflow.py:84-89 | sets the flag and the reason and leaves the queue alone |
| `OverrideWorkflow.OperationalOverrideWorkflow.ExtendWindow` | workers/synapse_workers/workflows/operational_override_workflow.py:91-98 | appends a positive extension to the queue and ignores any other |
| `OverrideWorkflow.OperationalOverrideWorkflow.HandleSignals` | workers/synapse_workers/workflows/operational_override_workflow.py:84-98 | any sequence of signals leaves the object as the window of the step machine |
| `OverrideWorkflow.OperationalOverrideWorkflow.WaitForExpiryOrSignal` | workers/synapse_workers/workflows/operational_override_workflow.py:284-319 | the wait terminates, and returns either at the end of the wait of the step machine or with the activity that failed |
| `OverrideWorkflow.OperationalOverrideWorkflow.DrainExtensions` | workers/synapse_workers/workflows/operational_override_workflow.py:287-304 | the queue is drained in order, and the end of the window moves with it |
| `OverrideWorkflow.OperationalOverrideWorkflow.WaitCondition` | workers/synapse_workers/workflows/operational_override_workflow.py:311-319 | blocked waiting ends for a termination, a pending extension or the deadline, and for nothing else |
| `OverrideWorkflow.OperationalOverrideWorkflow.Run` | workers/synapse_workers/workflows/operational_override_workflow.py:100-282 | run as a whole, for every script of answers, signals and delays: what it leaves on the device, the account of its window, the extensions received, and an outcome if and only if the answers it took meet the condition of that outcome |
| `OverrideWorkflow.OperationalOverrideWorkflow.MarkRevertFailed` | workers/synapse_workers/workflows/operational_override_workflow.py:321-340 | best-effort record and status, a failure of either skipping the rest |
| `OverrideWorkflow.OperationalOverrideWorkflow.RevertAndFinish` | workers/synapse_workers/workflows/operational_override_workflow.py:235-282 | the revert, its metrics and what follows it drive the step machine |
| `Fleet.WorkflowIdInjective` | workers/synapse_workers/triggers.py:32-36 | different devices never share a workflow identifier |
| `Fleet.StartRefusedIff` | workers/synapse_workers/triggers.py:39-61 | a start changes nothing if and only if the host name is blank or the same device has an open run, of any workflow type |
| `Triggers.WorkflowServer.StartDeviceWorkflow` | workers/synapse_workers/triggers.py:39-61 | a start adds exactly one execution, or reports an invalid host name or a busy device and changes nothing |
| `Triggers.WorkflowServer.FindOpen` | workers/synapse_workers/triggers.py:11-17 | finds whether an execution with the identifier is open, whatever closed ones there are |
| `Fleet.NextKeepsRuns` | workers/synapse_workers/triggers.py:1-18 | starts, activities, signals and time keep: at most one open run per device, every open run finding its device as it left it, every run in the invariant of its workflow |
| `Fleet.NextKeepsMetrics` | workers/synapse_workers/activities/override_activities.py:51-112 | and keep: the active gauge and the three counters are the sums over all runs |
| `Fleet.Reachable` | workers/synapse_workers/triggers.py:1-18 | both hold in every reachable state, from any fleet without runs |
| `Fleet.GaugeBalances` | workers/synapse_workers/activities/override_activities.py:60-112 | the gauge is never negative, and applies equal gauge plus reverts plus failures |
| `FleetSafety.DeviceChangesAreOwn` | workers/synapse_workers/triggers.py:4-9 | from any point at which a run is open to any later point at which it still is, every change to its device is one of its own steps |
| `FleetSafety.EveryRunEnds` | workers/synapse_workers/workflows/network_change_workflow.py:37-157 | in every reachable fleet every closed run has ended in one of the ways its workflow lists, with the device it leaves; which answers led there is said by the lemmas of `FleetAnswers` |
| `FleetAnswers.EveryRunIsTold` | workers/synapse_workers/triggers.py:1-18 | in every reachable fleet, the request that started a run and the answers and signals it has had since account for its point, its memory and its times |
| `FleetAnswers.ChangePlaceIff` | workers/synapse_workers/workflows/network_change_workflow.py:37-157 | in every reachable fleet: SUCCESS if and only if every plain answer was good, the intent rendered, the gate passed both payloads, and the deploy lost fewer than three attempts; and likewise the exact condition of every other ending and point; the device's configuration has changed only after the gate passed |
| `FleetAnswers.EmergencyPlaceIff` | workers/synapse_workers/workflows/emergency_change_workflow.py:72-231 | the same for emergency runs, by answers and time to live |
| `FleetAnswers.EmergencyTimes` | workers/synapse_workers/workflows/emergency_change_workflow.py:166-215 | the revert is answered no earlier than the time to live after the audit that follows the validation; a returned run leaves the device active if and only if its status write was good |
| `FleetAnswers.DriftPlaceIff` | workers/synapse_workers/workflows/drift_remediation_workflow.py:157-304 | the same for drift runs, by answers and the device found; after a failed validator the device is in maintenance if and only if the status write was good, and as it was otherwise |
| `FleetAnswers.OverrideOutcomeIff` | workers/synapse_workers/workflows/operational_override_workflow.py:100-282 | the same for the outcomes of override runs, by answers, extensions consumed and the reason the wait ended; the extensions received are exactly those sent while the run was open |
| `FleetAnswers.OverrideTimes` | workers/synapse_workers/workflows/operational_override_workflow.py:192-234 | an override that was not terminated is not checked before its duration and every extension received by the end of its wait have passed since it was marked active, and reports as active the time from there to the rendering of the intent |
| `FleetEvents.PastIffHappened` | workers/synapse_workers/workflows/operational_override_workflow.py:203-220 | a run is past a safety check that said yes, or no, if and only if some step of the history was that answer; and so for a lost account and for the record of a failed revert |
| `FleetEvents.UnsafeNeverReverts` | workers/synapse_workers/workflows/operational_override_workflow.py:210-220 | a run whose safety check said no never writes again: its device stays on the override, it closes with the unsafe audit or its failure, and the gauge then releases it if and only if some step recorded the failure |
| `FleetEvents.RevertIsSafe` | workers/synapse_workers/workflows/operational_override_workflow.py:203-241 | a run gets to its revert, and so to OVERRIDE_REVERTED or OVERRIDE_CANCELLED, only if some step answered yes to its safety check and none answered no |
| `FleetSafety.OverrideWindow` | workers/synapse_workers/workflows/operational_override_workflow.py:284-319 | in every reachable fleet: no override reverts early; when the wait ends by itself the extensions received by then are exactly those consumed; the wait makes at most two passes more than there were extensions; OVERRIDE_REVERTED reports at least the whole window as active, what it leaves pending is exactly what arrived after the wait, and nothing is pending if and only if nothing did |
| `FleetSafety.RevertedIff` | workers/synapse_workers/workflows/operational_override_workflow.py:222-282 | in every reachable fleet, for every override run that returned: what is on the device, when the revert erased the override, and when it left the bare intent |
| `Counterexamples.RevertLeavesBanner` | workers/synapse_workers/activities/override_activities.py:86-92 | a run that returns OVERRIDE_REVERTED, no activity having failed, with its override still on the device |
| `FleetEvents.CountedIffLost` | workers/synapse_workers/activities/override_activities.py:51-61 | a closed override run is still in the gauge if and only if an answer of the environment lost it: the failure of an unguarded activity between apply and revert, or of the one that records a failed revert |
| `FleetEvents.GaugeDrainsIff` | workers/synapse_workers/activities/override_activities.py:103-112 | once every run is closed the gauge is zero if and only if no step of the whole history was such an answer |
| `Counterexamples.LateExtensionIsLost` | workers/synapse_workers/workflows/operational_override_workflow.py:192-241 | a run that returns OVERRIDE_REVERTED after its original minute with an hour of extension still queued, because the signal came during the safety check |
| `Counterexamples.LostRecordLeaks` | workers/synapse_workers/workflows/operational_override_workflow.py:321-340 | a run out of which no exception escapes unhandled and that the gauge still counts at the end |
| `Quarantine.RaiseQuarantinesIff` | workers/synapse_workers/workflows/drift_remediation_workflow.py:231-301 | in every reachable fleet: a step that closes a run which raised after its first device write, its rollback and status activities having succeeded, leaves that device idle, and in maintenance if and only if the run is not a remediation whose last audit event failed |
| `Quarantine.QuarantineHolds` | workers/synapse_workers/workflows/drift_remediation_workflow.py:96-112 | from such a step on, whatever happens later: if ever a drift run on the device gets as far as writing, some step in between was the acknowledged `active` write of a change or emergency run on it, and that run has returned normally |
| `Quarantine.LeavingMaintenance` | workers/synapse_workers/workflows/network_change_workflow.py:149-154 | a device leaves maintenance only by the acknowledged `active` write of an open change or emergency run of its own that has finished its work, never by a drift run |
| `Quarantine.DriftNeverLifts` | workers/synapse_workers/workflows/drift_remediation_workflow.py:286-291 | a drift run gets to its status write only on a device that is not in maintenance |
| `Quarantine.LifterReturned` | workers/synapse_workers/workflows/emergency_change_workflow.py:193-231 | the run that made that write has returned normally by the time a drift run on the device is open |
| `Counterexamples.LateAuditLiftsQuarantine` | workers/synapse_workers/workflows/drift_remediation_workflow.py:292-301 | such a remediation, concretely: it raises, and the device is active |
| `Worker.World.GnmiSet` | backend/network_synapse/scripts/deploy_configs.py:49-59 | up to three attempts of a SET, each landing or not, as the retry policy makes them |
| `Worker.World.UpdateDeviceStatus` | workers/synapse_workers/activities/infrahub_activities.py:53-82 | sets the status, or fails and leaves it |
| `DriftMeasures.ClassifyDrift` | workers/synapse_workers/workflows/drift_remediation_workflow.py:67-93 | severity, and one diff line for each differing section in sorted order |
| `DriftMeasures.ClassificationIsUnique` | workers/synapse_workers/workflows/drift_remediation_workflow.py:83 | the sorted order leaves one possible result |
| `DriftMeasures.AdminStateAtAnyDepth` | workers/synapse_workers/workflows/drift_remediation_workflow.py:56-64 | the recursive search finds the key if and only if some object at some depth has it |
| `DriftMeasures.CriticalIff` | workers/synapse_workers/workflows/drift_remediation_workflow.py:83-92 | CRITICAL if and only if some differing section reads as absent on one side or holds an admin-state key at any depth |
| `DriftMeasures.DriftIffPositiveScore` | backend/network_synapse/monitoring/compliance_posture.py:87-106 | the classifier reports drift on two objects if and only if `compute_drift_score` of them is positive |
| `DriftMeasures.ScoreRange` | backend/network_synapse/monitoring/compliance_posture.py:93-106 | the score of any two inputs lies in 0..1, and is zero if and only if they are one and the same object |
| `DriftMeasures.ScoreIsFraction` | backend/network_synapse/monitoring/compliance_posture.py:101-106 | the score lies in 0..1, and times the number of sections it is the number of differing sections |
| `DriftMeasures.LinesMatchScoreIff` | workers/synapse_workers/workflows/drift_remediation_workflow.py:83-87 | the classifier emits score times sections diff lines if and only if no section is an explicit null on one side and missing on the other |
| `DriftMeasures.NullGapIff` | backend/network_synapse/monitoring/compliance_posture.py:104-105 | it is on exactly those sections that the two tests differ |
| `DriftMeasures.NoNullsNoGap` | backend/network_synapse/monitoring/compliance_posture.py:104-105 | without null sections there is no such section |
| `DriftMeasures.NullGapExample` | workers/synapse_workers/workflows/drift_remediation_workflow.py:84-86 | one such pair: drift without a line, called cosmetic, with score 1 |
| `DriftMeasures.SeveritySymmetric` | workers/synapse_workers/workflows/drift_remediation_workflow.py:67-93 | swapping the documents keeps the severity |
| `DriftMeasures.ScoreSymmetric` | backend/network_synapse/monitoring/compliance_posture.py:87-106 | swapping the documents keeps the score |
| `Strings.SortKeys` | workers/synapse_workers/workflows/drift_remediation_workflow.py:83 | the keys in ascending order, each once |
| `GnmiBackup.ExtractConfigPayload` | workers/synapse_workers/activities/_gnmi_io.py:38-72 | the nested loops with their early raises compute the extraction of the flattened updates |
| `GnmiBackup.ExtractsIff` | workers/synapse_workers/activities/_gnmi_io.py:46-72 | a backup exists if and only if some update carries a value and all carried values are root-level objects with pairwise disjoint keys; it is their union; the missing-value error is reported if and only if no update carries a value |
| `GnmiBackup.OrderIrrelevant` | workers/synapse_workers/activities/_gnmi_io.py:48-69 | neither the order of notifications nor that of updates changes whether there is a backup, or the backup |
| `GnmiBackup.BackupRestores` | workers/synapse_workers/activities/_gnmi_io.py:39-45 | however a response splits the configuration, the backup is that configuration and an acknowledged rollback to it restores it |
| `LineProtocol.FourPassesAreOne` | backend/network_synapse/monitoring/compliance_posture.py:135-137 | the four whole-string replacements are one pass that escapes each special character |
| `LineProtocol.EscapeRoundTrip` | backend/network_synapse/monitoring/compliance_posture.py:135-137 | a reader in which a backslash takes the next character literally inverts the escaping of every string |
| `LineProtocol.SplitJoined` | backend/network_synapse/monitoring/compliance_posture.py:145-153 | splitting at unescaped delimiters undoes joining |
| `LineProtocol.DeviceLineReads` | backend/network_synapse/monitoring/compliance_posture.py:144-153 | a device line reads back as exactly its measurement, environment, group, device, fields and time, whatever characters the tags hold |
| `LineProtocol.FleetLineReads` | backend/network_synapse/monitoring/compliance_posture.py:155-158 | so does the fleet line |
| `LineProtocol.BuildInfluxLines` | backend/network_synapse/monitoring/compliance_posture.py:140-159 | one line for each posture in order, then the fleet line with the mean completeness |
| `LineProtocol.BuiltLinesRead` | backend/network_synapse/monitoring/compliance_posture.py:140-159 | every line built reads back as its posture, and the last as the mean |
| `LineProtocol.RatioBetween` | backend/network_synapse/monitoring/compliance_posture.py:109-113 | the mean lies between any bounds that hold of every device |
| `LineProtocol.BodyReadsIff` | backend/network_synapse/monitoring/compliance_posture.py:172 | the posted body cut at newlines is the lines that were built if and only if environment, groups and devices are free of newlines |
| `LineProtocol.NewlineBreaksBody` | backend/network_synapse/monitoring/compliance_posture.py:135-137 | a device with a newline in its name, whose lines do not come back out of the body |
| `InfrahubGraph.StripCidrMeans` | backend/network_synapse/infrahub/models.py:164-166 | the text before the first slash, as both `_strip_cidr` and the client's `split` compute it |
| `SrlinuxTransforms.TransformInterfaces` | backend/network_synapse/transforms/srlinux_interface_transform.py:31-77 | the loop with its `continue` compiles the fabric and loopback interfaces in order |
| `SrlinuxTransforms.TransformBgp` | backend/network_synapse/transforms/srlinux_bgp_transform.py:34-99 | the router-id loop with its `break`, the neighbour loop, and the empty answer for an unknown device |
| `InfrahubClient.GetDeviceInterfaces` | backend/network_synapse/infrahub/client.py:310-336 | each interface parsed, in order |
| `InfrahubClient.GetDeviceBgpSessions` | backend/network_synapse/infrahub/client.py:338-369 | each session parsed, in order |
| `InfrahubClient.GetDeviceConfig` | backend/network_synapse/infrahub/client.py:371-397 | the parsed device, or the error for an unknown device or a missing router identifier |
| `CompilerAgreement.InterfacesAgree` | backend/network_synapse/infrahub/models.py:201-219 | for every answer the transform and the client with its template give the same interface entries in the same order |
| `CompilerAgreement.CompiledInOrder` | backend/network_synapse/transforms/srlinux_interface_transform.py:36-45 | one entry for each fabric or loopback interface, in the order of the answer, and no other |
| `CompilerAgreement.CompiledReads` | backend/network_synapse/transforms/srlinux_interface_transform.py:47-74 | what an entry says of its interface: name, state, the MTU or the default 9214, and an address exactly when the first one is not empty |
| `CompilerAgreement.NeighborReads` | backend/network_synapse/transforms/srlinux_bgp_transform.py:61-74 | what a neighbour entry says of its session, with the defaults of what the answer leaves out |
| `CompilerAgreement.InterfaceConfigsAgree` | backend/network_synapse/transforms/srlinux_interface_transform.py:36-77 | and so the same configuration |
| `CompilerAgreement.NeighborsAgree` | backend/network_synapse/infrahub/models.py:180-199 | and the same neighbours |
| `CompilerAgreement.BgpConfigsAgreeIff` | backend/network_synapse/infrahub/client.py:383-391 | the BGP configurations are equal if and only if the device exists, some loopback has an address entry, and the first address of the first such loopback has text before its slash |
| `CompilerAgreement.RouterIdsDiffer` | backend/network_synapse/transforms/srlinux_bgp_transform.py:48-57 | an answer with an empty first address: the transform emits an empty router identifier, the client takes the next loopback |
| `CompilerAgreement.RouterIdMissing` | backend/network_synapse/infrahub/client.py:383-391 | an address that begins with its slash: the transform emits an empty router identifier, the client raises |
| `HygieneChecker.ValidateBgpHygiene` | backend/network_synapse/scripts/hygiene_checker.py:14-61 | the nested loops with their early returns, over any parsed payload, including those on which they raise |
| `HygieneChecker.BgpGatePassesIff` | backend/network_synapse/scripts/hygiene_checker.py:25-57 | for every payload: passes if and only if it does not mention network instances, or is an object each of whose instances has no BGP object or one with an AS number in range, groups and valid peers |
| `HygieneChecker.ValidateInterfaceHygiene` | backend/network_synapse/scripts/hygiene_checker.py:64-98 | the same for interfaces |
| `HygieneChecker.InterfaceGatePassesIff` | backend/network_synapse/scripts/hygiene_checker.py:75-94 | for every payload: passes if and only if it does not mention interfaces, or is an object each of whose interfaces has a good name and only valid prefixes |
| `HygieneChecker.RunHygieneChecks` | backend/network_synapse/scripts/hygiene_checker.py:101-113 | passes if and only if both validators pass, and raises if and only if one of them raises |
| `InterfaceConsistency.InterfaceConsistencyCheck.Validate` | backend/network_synapse/checks/interface_consistency_check.py:24-76 | appends the errors of every interface, in order, to those already logged |
| `GateAgreement.SameNames` | backend/network_synapse/checks/interface_consistency_check.py:42-48 | the check and the gate, each with its own list, expect the same names |
| `GateAgreement.CompiledBgpMeetsGateIff` | backend/network_synapse/scripts/hygiene_checker.py:35-55 | for a device that exists the gate passes the compiled BGP configuration if and only if the AS number is in 1..4294967295 and every stripped peer address is valid; it never raises |
| `GateAgreement.CompiledInterfacesMeetGateIff` | backend/network_synapse/scripts/hygiene_checker.py:78-92 | the gate passes the compiled interfaces if and only if every compiled one has a name, draws no name error from the consistency check, and carries a valid address or none; it never raises |
| `GateAgreement.CleanCheckMeetsGate` | backend/network_synapse/checks/interface_consistency_check.py:42-48 | a source of truth with named interfaces, valid addresses and no name error in the check is always let through |
| `GateAgreement.CleanCheckDecides` | backend/network_synapse/checks/interface_consistency_check.py:68-76 | when the check reports no loopback without an address, one loopback is enough to decide a router identifier |
| `FabricLinks.ProvisionFabric` | backend/network_synapse/infrahub/resource_manager.py:565-586 | one link per peer, its addresses consecutive inside its own prefix, if and only if the pool answers for every peer with a prefix of at most 31 bits; otherwise the first peer that fails, and why |
| `FabricLinks.AddressesDistinct` | backend/network_synapse/infrahub/resource_manager.py:573-584 | with disjoint prefixes the 2n link addresses are pairwise distinct |
| `FabricLinks.PairOfPrefix` | backend/network_synapse/infrahub/resource_manager.py:571-576 | the pair of a /31 is the whole prefix (section 2.1 of RFC 3021), and that of a shorter prefix leaves out its network and broadcast addresses |
| `SeedStore.FoldAgain` | backend/network_synapse/data/populate_sot.py:75-133 | a second pass over the same entries adds nothing, returns the same ids and fails where the first one failed |
| `SeedStore.FoldIds` | backend/network_synapse/data/populate_sot.py:201-218 | the ids a pass returns are those that looking up would give at its end |
| `SeedStore.FoldCloses` | backend/network_synapse/data/populate_sot.py:350-382 | the objects a pass creates refer only to objects before them, of the kinds their roles want |
| `SeedStore.FoldNames` | backend/network_synapse/data/populate_sot.py:741-768 | a pass without soft creations has an id for a name if and only if some entry asked for an object under it |
| `SeedReferences.ExactAt` | backend/network_synapse/data/populate_sot.py:951-1030 | after a run that returned, the ids of a section are the lookups in the final store of exactly the keys that the seed data makes known |
| `SeedReferences.CreatedIsDescribed` | backend/network_synapse/data/populate_sot.py:350-494 | after a run that returned, every object it created has the key and attributes of an entry and refers, in each role for which that entry names an object, to the object of exactly the named key whenever the seed data makes it known, and to nothing else |
| `SeedReferences.DescribedIsThere` | backend/network_synapse/data/populate_sot.py:75-133 | and every object that an entry describes is in the store under its key, unless it is an interface or a session that the server refused |
| `SeedReferences.SeedingIsIdempotent` | backend/network_synapse/data/populate_sot.py:951-1030 | seeding twice creates nothing the second time and returns the same id maps, or fails at the same place; when it returns, every object that an entry describes is there, but for refused interfaces and sessions |
| `SeedReferences.SeedingIsClosed` | backend/network_synapse/data/populate_sot.py:14-27 | every object a run adds refers only to objects that were there before it, of the right kinds, and every id returned denotes an object of its kind; if the run returned, every object added refers to all that its entry names and the seed data makes known |
| `Seeding.SeededIff` | backend/network_synapse/data/populate_sot.py:741-792 | after a run that returned: a device is known if and only if it is listed, a binding seeded if and only if one of its entries is for a known device, a rule if and only if one of its entries is for a seeded binding |
| `Seeding.RunEndsWithBusiness` | backend/network_synapse/data/populate_sot.py:1028-1030 | the whole run ends with business intent seeding |
| `SeedScript.SourceOfTruth.Create` | backend/network_synapse/data/populate_sot.py:59-72 | the object is added if and only if the server accepts it; a refusal and an error are told apart |
| `SeedScript.SourceOfTruth.GetOrCreate` | backend/network_synapse/data/populate_sot.py:75-133 | the first object found, or a created one, or the exception for a refusal or an error, which changes nothing |
| `SeedScript.SourceOfTruth.PopulateIpAddresses` | backend/network_synapse/data/populate_sot.py:324-347 | the loop that skips absent and repeated addresses does the pass of its section |
| `SeedScript.SourceOfTruth.PopulateInterfaces` | backend/network_synapse/data/populate_sot.py:350-424 | the loop that skips unknown devices, only logs refused creations and raises on an error does the pass of its section |
| `SeedScript.SourceOfTruth.PopulateBgpSessions` | backend/network_synapse/data/populate_sot.py:427-494 | the loop that fills in each known reference, only logs refused creations and raises on an error does the pass of its section |
| `SeedScript.SourceOfTruth.SeedServices` | backend/network_synapse/data/populate_sot.py:692-704 | does the pass of its section |
| `SeedScript.SourceOfTruth.SeedEndpoints` | backend/network_synapse/data/populate_sot.py:707-722 | does the pass of its section, with a key error for an unknown service |
| `SeedScript.SourceOfTruth.SeedIntents` | backend/network_synapse/data/populate_sot.py:725-738 | does the pass of its section, with a key error for an unknown endpoint |
| `SeedScript.SourceOfTruth.SeedBindings` | backend/network_synapse/data/populate_sot.py:741-768 | does the pass of its section: an unknown device skips the entry, an unknown intent is a key error |
| `SeedScript.SourceOfTruth.SeedRuleSets` | backend/network_synapse/data/populate_sot.py:771-792 | does the pass of its section, and counts the rules whose binding was seeded |
| `SeedScript.SourceOfTruth.PopulateBusinessIntent` | backend/network_synapse/data/populate_sot.py:795-835 | does the run of the five sections, with the counts of what it seeded |

## Left out

- Temporal itself: replay, and acknowledgements lost between an activity and its workflow. The body of an activity attempt and its report are one step, except that a failed gNMI write may have landed.
- An exception that leaves a run closes it. That a plain `RuntimeError` is retried as a workflow-task fault, and keeps the workflow identifier, is not modelled.
- Starts that bypass `start_device_workflow`, changes made on a device by hand, and two host names for one address: excluded by assumption, as the mutex is keyed by host name while writes go to an address.
- The intent and the two rendered payloads enter a workflow as the answers of its awaits, and the gate judges them there; that a payload is what a compiler emits is stated apart, in `CompilerAgreement` and `GateAgreement`.
- YANG lists are objects keyed by entry in a device configuration, so the order of list entries is not modelled there; in compiler output lists are sequences.
- JSON text, Jinja syntax and their quoting: payloads are parsed trees, and a template is the tree it writes. Python's equality of `True` and `1` is not modelled.
- `store_backup` only logs; the provisioning counters, the duration histogram and the per-device validation gauge have no effect on the workflows.
- The GraphQL, gNMI and HTTP clients, credentials and TLS: an activity returns or raises, with its effect on the modelled device or store.
- Validity of an address or network is a parameter of the gate, and of the request of a standard change. The printing of numbers is a parameter of the line writer, assumed only to use no special character. Scores and ratios are real numbers, without rounding.
- `null` attribute values other than the MTU in the GraphQL answers, which the client's models reject and the transforms pass on.
- The allocator of prefixes is external: `ProvisionFabric` takes its answers. Nothing is said about the pools, the AS number or the loopback, nor about releasing anything after a failure.
- The answer of the source of truth to a creation (accept, refuse or error) is a function of the object; a server that changes its mind between two runs may create in the second what it refused in the first. Queries always answer. Lookups are exact, without normalisation of addresses.
- `populate_manufacturer`, `populate_location`, `populate_platform`, `populate_device_types`, `populate_autonomous_systems`, `populate_namespace`, `populate_vrfs`, `populate_devices` and `populate_ip_prefixes` are modelled by their plans in `Seeding`, so they are part of every statement about a run; their loops are not written out a second time.
- Resource pools, which are opt-in, and the dry run of the seeding script.
- The portal, role checks, command-line entry points, schema loading, dashboards, SuzieQ scoring, the address-uniqueness and BGP-session checks: plumbing, or single loops that would add nothing harder.
- Runs that never end: the script of a `World` may be of any length, and once it has run out activities answer well, with empty documents, and waits last to their deadline.
