/** The override workflow object: its signal handlers, its wait loop and its run method, with every
    await a point at which signals arrive and handlers run. */
module OverrideWorkflow {
  import opened Json
  import opened Devices
  import opened Fleet
  import opened Worker
  import opened OperationalOverride
  import OverrideAnswers

  lemma {:induction false} SignalledWindow(r: Run, signals: seq<Signal>)
    ensures Signalled(OverrideFlow(r), signals) == OverrideFlow(r.(window := HandleAll(r.window, signals)))
    decreases |signals|
  {
    if signals != [] { SignalledWindow(r, signals[..|signals| - 1]); }
  }

  /** Run `r`, having handled its signals, gets the answer `y` at time `now`. */
  function Answered(r: Run, l: Local, now: int, y: Reply): Local {
    var (r', d', m') := OperationalOverride.Step(r, l.device, l.metrics, now, y);
    Local(OverrideFlow(r'), d', m', now)
  }

  lemma BeatOfOverride(l: Local, r: Run, b: Beat)
    requires l.flow == OverrideFlow(r) && r.pc.At?
    ensures OneBeat(l, b) == Answered(r.(window := HandleAll(r.window, b.signals)), l, l.clock + b.elapsed, b.reply)
  {
    hide OperationalOverride.Step;
    SignalledWindow(r, b.signals);
  }

  class OperationalOverrideWorkflow {
    var terminated: bool
    var terminateReason: string
    var pendingExtensions: seq<Extension>

    constructor ()
      ensures !terminated && terminateReason == "" && pendingExtensions == []
    {
      terminated, terminateReason, pendingExtensions := false, "", [];
    }

    /** The object's fields are those of the window. */
    ghost predicate Agrees(w: Window)
      reads this
    {
      terminated == w.terminated && terminateReason == w.terminateReason && pendingExtensions == w.pending
    }

    /** Signal: the incident is resolved. */
    method TerminateEarly(reason: string)
      modifies this
      ensures terminated && terminateReason == reason && pendingExtensions == old(pendingExtensions)
    {
      terminated := true;
      terminateReason := reason;
    }

    /** Signal: the incident is still on. Only a positive extension is queued. */
    method ExtendWindow(additionalSeconds: int, reason: string)
      modifies this
      ensures terminated == old(terminated) && terminateReason == old(terminateReason)
      ensures pendingExtensions == if additionalSeconds > 0
                                   then old(pendingExtensions) + [Extension(additionalSeconds, reason)]
                                   else old(pendingExtensions)
    {
      if additionalSeconds <= 0 {
        return;
      }
      pendingExtensions := pendingExtensions + [Extension(additionalSeconds, reason)];
    }

    method HandleSignals(signals: seq<Signal>, ghost w: Window)
      requires Agrees(w)
      modifies this
      ensures Agrees(HandleAll(w, signals))
    {
      assert signals[..0] == [];
      for i := 0 to |signals|
        invariant Agrees(HandleAll(w, signals[..i]))
      {
        assert signals[..i + 1][..i] == signals[..i];
        match signals[i]
        case TerminateEarly(reason) => TerminateEarly(reason);
        case ExtendWindow(seconds, reason) => ExtendWindow(seconds, reason);
      }
      assert signals[..|signals|] == signals;
    }

    /** An await of this run: time passes, signals are handled, the activity answers. */
    method Await(w: World, patience: nat, ghost r: Run) returns (b: Beat)
      requires w.Valid() && w.mirror.flow == OverrideFlow(r) && r.pc.At? && w.clock == w.mirror.clock
      requires Agrees(r.window)
      modifies this, w`clock, w`script, w`taken, w`mirror
      ensures w.Valid() && w.taken == old(w.taken) + [b]
      ensures w.mirror == Answered(r.(window := HandleAll(r.window, b.signals)), old(w.mirror), w.clock, b.reply)
      ensures w.clock == old(w.clock) + b.elapsed
      ensures Progress(old(w.script), w.script, b)
      ensures old(w.script) == [] ==> b.elapsed == patience
      ensures Agrees(HandleAll(r.window, b.signals)) && SameAccount(r.window, HandleAll(r.window, b.signals))
    {
      hide OneBeat;
      hide Answered;
      hide Play;
      b := w.Await(patience);
      BeatOfOverride(old(w.mirror), r, b);
      HandleSignals(b.signals, r.window);
      SignalsKeep(r.window, b.signals);
    }

    /** An await of a gNMI write. */
    method AwaitSet(w: World, write: Write, ghost r: Run) returns (b: Beat, acknowledged: bool)
      requires w.Valid() && w.mirror.flow == OverrideFlow(r) && r.pc.At? && w.clock == w.mirror.clock
      requires Agrees(r.window)
      modifies this, w`clock, w`script, w`taken, w`mirror, w`device
      ensures w.Valid() && w.taken == old(w.taken) + [b]
      ensures w.mirror == Answered(r.(window := HandleAll(r.window, b.signals)), old(w.mirror), w.clock, b.reply)
      ensures w.clock == old(w.clock) + b.elapsed
      ensures Progress(old(w.script), w.script, b)
      ensures (w.device, acknowledged) == Push(old(w.device), write, b.reply.lost)
      ensures Agrees(HandleAll(r.window, b.signals)) && SameAccount(r.window, HandleAll(r.window, b.signals))
    {
      hide OneBeat;
      hide Answered;
      hide Play;
      hide Push;
      b, acknowledged := w.GnmiSet(write);
      BeatOfOverride(old(w.mirror), r, b);
      HandleSignals(b.signals, r.window);
      SignalsKeep(r.window, b.signals);
    }

    /** Wait out the window, taking extensions as they come. On return either the wait has ended, with
        the object's fields those of window `now`, or an activity of the loop has failed.
        `r` is the run, and `at` its window as the loop is entered. */
    method WaitForExpiryOrSignal(w: World, deadline: int, ghost r: Run, ghost at: Window)
      returns (failed: Option<Stage>, ghost cur: Window)
      requires w.Valid() && w.Agreed() && Agrees(at) && deadline == at.endTime
      requires w.mirror.flow == OverrideFlow(Resume(r, LoopHead(at, w.clock)))
      modifies this, w`clock, w`script, w`taken, w`mirror
      ensures w.Valid() && w.Agreed() && Agrees(cur) && cur.appliedAt == at.appliedAt && old(w.taken) <= w.taken
      ensures failed.None? ==> w.mirror.flow == OverrideFlow(Resume(r, EndWait(cur, w.clock)))
      ensures failed.Some? ==> w.mirror.flow.OverrideFlow?
                               && w.mirror.flow.override.pc == Closed(Crashed(failed.value))
    {
      hide Play;
      hide EndWait;
      cur := at;
      failed := None;
      var endTime := deadline;
      while !terminated
        modifies this, w`clock, w`script, w`taken, w`mirror
        invariant failed.None?
        invariant w.Valid() && w.Agreed() && old(w.taken) <= w.taken
        invariant Agrees(cur) && endTime == cur.endTime && cur.appliedAt == at.appliedAt
        invariant w.mirror.flow == OverrideFlow(Resume(r, LoopHead(cur, w.clock)))
        decreases |w.script|, pendingExtensions != [] || w.clock < endTime
      {
        cur := cur.(passes := cur.passes + 1);
        failed, endTime, cur := DrainExtensions(w, endTime, r, cur);
        if failed.Some? { return; }
        if endTime <= w.clock { return; }
        cur := WaitCondition(w, endTime, r, cur);
      }
    }

    /** The inner loop: take extensions until none is pending. */
    method DrainExtensions(w: World, deadline: int, ghost r: Run, ghost at: Window)
      returns (failed: Option<Stage>, endTime: int, ghost cur: Window)
      requires w.Valid() && w.Agreed() && Agrees(at) && deadline == at.endTime
      requires w.mirror.flow == OverrideFlow(Resume(r, Drain(at, w.clock)))
      modifies this, w`clock, w`script, w`taken, w`mirror
      ensures w.Valid() && w.Agreed() && Agrees(cur) && cur.appliedAt == at.appliedAt && old(w.taken) <= w.taken
      ensures |w.script| <= old(|w.script|)
      ensures old(pendingExtensions) == [] ==> endTime == deadline && w.clock == old(w.clock)
      ensures failed.None? ==> pendingExtensions == [] && endTime == cur.endTime
                               && w.mirror.flow == OverrideFlow(Resume(r, Drain(cur, w.clock)))
      ensures failed.Some? ==> w.mirror.flow.OverrideFlow?
                               && w.mirror.flow.override.pc == Closed(Crashed(failed.value))
    {
      hide Play;
      hide EndWait;
      failed, endTime, cur := None, deadline, at;
      while pendingExtensions != []
        modifies this, w`clock, w`script, w`taken, w`mirror
        invariant failed.None?
        invariant w.Valid() && w.Agreed() && old(w.taken) <= w.taken
        invariant Agrees(cur) && endTime == cur.endTime && cur.appliedAt == at.appliedAt
        invariant |w.script| <= old(|w.script|)
        invariant old(pendingExtensions) == [] ==>
                    pendingExtensions == [] && endTime == deadline && w.clock == old(w.clock)
        invariant w.mirror.flow == OverrideFlow(Resume(r, Drain(cur, w.clock)))
        decreases |w.script|, |pendingExtensions|
      {
        var next := pendingExtensions[0];
        pendingExtensions := pendingExtensions[1..];
        endTime := endTime + next.seconds;
        cur := Drain(cur, w.clock).1;
        failed, cur := RecordExtended(w, r, cur);
        if failed.Some? { return; }
      }
    }

    /** One activity to count an extension and one to audit it. */
    method RecordExtended(w: World, ghost r: Run, ghost at: Window) returns (failed: Option<Stage>, ghost cur: Window)
      requires w.Valid() && w.Agreed() && Agrees(at)
      requires w.mirror.flow == OverrideFlow(Resume(r, (RecordExtension, at)))
      modifies this, w`clock, w`script, w`taken, w`mirror
      ensures w.Valid() && w.Agreed() && old(w.taken) <= w.taken
      ensures Agrees(cur) && cur.appliedAt == at.appliedAt && cur.endTime == at.endTime
      ensures |w.script| < old(|w.script|) || (w.script == old(w.script) == [] && pendingExtensions == at.pending)
      ensures failed.None? ==> w.mirror.flow == OverrideFlow(Resume(r, Drain(cur, w.clock)))
      ensures failed.Some? ==> w.mirror.flow.OverrideFlow?
                               && w.mirror.flow.override.pc == Closed(Crashed(failed.value))
    {
      hide Play;
      hide HandleAll;
      hide Drain;
      var b := Await(w, 0, Resume(r, (RecordExtension, at)));
      SignalsKeep(at, b.signals);
      cur := HandleAll(at, b.signals);
      if !b.reply.ok { return Some(RecordExtension), cur; }
      b := Await(w, 0, Resume(r, (AuditExtension, cur)));
      SignalsKeep(cur, b.signals);
      cur := HandleAll(cur, b.signals);
      failed := if b.reply.ok then None else Some(AuditExtension);
    }

    /** `wait_condition` with the remaining window as its timeout. */
    method WaitCondition(w: World, endTime: int, ghost r: Run, ghost at: Window) returns (ghost cur: Window)
      requires w.Valid() && w.Agreed() && Agrees(at) && endTime == at.endTime
      requires w.mirror.flow == OverrideFlow(Resume(r, (Waiting, at)))
      modifies this, w`clock, w`script, w`taken, w`mirror
      ensures w.Valid() && w.Agreed() && old(w.taken) <= w.taken
      ensures Agrees(cur) && cur.endTime == endTime && cur.appliedAt == at.appliedAt
      ensures w.mirror.flow == OverrideFlow(Resume(r, LoopHead(cur, w.clock)))
      ensures |w.script| < old(|w.script|) || (w.script == [] && pendingExtensions == at.pending && endTime <= w.clock)
    {
      hide Play;
      hide LoopHead;
      cur := at;
      var waiting := true;
      while waiting
        modifies this, w`clock, w`script, w`taken, w`mirror
        invariant w.Valid() && w.Agreed() && old(w.taken) <= w.taken
        invariant Agrees(cur) && cur.endTime == endTime && cur.appliedAt == at.appliedAt
        invariant waiting ==> w.mirror.flow == OverrideFlow(Resume(r, (Waiting, cur)))
        invariant !waiting ==> w.mirror.flow == OverrideFlow(Resume(r, LoopHead(cur, w.clock)))
        invariant |w.script| < old(|w.script|)
                  || (w.script == old(w.script) && waiting && cur == at)
                  || (w.script == [] && pendingExtensions == at.pending && !waiting && endTime <= w.clock)
        decreases |w.script|, waiting
      {
        var b := Await(w, if w.clock < endTime then endTime - w.clock else 0, Resume(r, (Waiting, cur)));
        SignalsKeep(cur, b.signals);
        cur := HandleAll(cur, b.signals);
        waiting := !(terminated || pendingExtensions != [] || endTime <= w.clock);
      }
    }

    /** The workflow, on a world and an object in which it has just been started. The contract is that
        of the step machine: what a closed run leaves on the device, the account of its window, and the
        outcome that its answers decide. */
    method Run(w: World, config: Json, durationSeconds: int) returns (outcome: Outcome)
      requires w.Valid() && w.Agreed() && w.taken == []
      requires w.mirror.flow == OverrideFlow(OperationalOverride.Start(config, durationSeconds))
      requires !terminated && terminateReason == "" && pendingExtensions == []
      modifies this, w
      ensures w.Valid() && w.Agreed()
      ensures w.mirror.flow.OverrideFlow? && w.mirror.flow.override.pc == Closed(outcome)
      ensures Left(w.mirror.flow.override, outcome, old(w.device), w.device)
      ensures TimeInv(w.mirror.flow.override, w.clock)
      ensures var r, ys := w.mirror.flow.override, HeardBy(w.start, w.taken);
              && r.window.received == OverrideAnswers.Extensions(SentBy(w.start, w.taken))
              && forall o :: outcome == o <==>
                   OverrideAnswers.ToldClosed(o, durationSeconds, |r.window.consumed|, r.window.early, ys)
    {
      StartFlowHolds(OverrideRequest(config, durationSeconds), w.device, w.clock);
      outcome := Execute(w, config, durationSeconds);
      hide Play;
      hide HeardBy;
      hide SentBy;
      hide Left;
      hide TimeInv;
      hide OverrideAnswers.ToldClosed;
      PlayKeepsInv(w.start, w.start.device, w.taken);
      PlayTold(OverrideRequest(config, durationSeconds), w.start, w.taken);
      ghost var r, ys, gs := w.mirror.flow.override, HeardBy(w.start, w.taken), SentBy(w.start, w.taken);
      forall o ensures outcome == o <==>
                 OverrideAnswers.ToldClosed(o, durationSeconds, |r.window.consumed|, r.window.early, ys)
      {
        OverrideAnswers.OutcomeIff(r, config, durationSeconds, ys, gs, w.mirror.clock, o);
      }
    }

    method Execute(w: World, config: Json, durationSeconds: int) returns (outcome: Outcome)
      requires w.Valid() && w.Agreed()
      requires w.mirror.flow == OverrideFlow(OperationalOverride.Start(config, durationSeconds))
      requires Agrees(OperationalOverride.Start(config, durationSeconds).window)
      modifies this, w
      ensures w.Valid() && w.Agreed() && old(w.taken) <= w.taken
      ensures w.mirror.flow.OverrideFlow? && w.mirror.flow.override.pc == Closed(outcome)
    {
      hide WaitStep;
      hide SafetyStep;
      hide RevertStep;
      hide Push;
      hide Play;
      hide HandleAll;
      if durationSeconds <= 0 { return Refused; }
      var b := Await(w, 0, w.mirror.flow.override); // audit: initiated
      if !b.reply.ok { return Crashed(AuditInitiated); }
      b := Await(w, 0, w.mirror.flow.override); // fetch_running_config, for audit only
      if !b.reply.ok { return Crashed(Capture); }
      b := Await(w, 0, w.mirror.flow.override); // store_backup
      if !b.reply.ok { return Crashed(StoreBackup); }
      outcome := ApplyAndHold(w, config, durationSeconds);
    }

    method ApplyAndHold(w: World, config: Json, durationSeconds: int) returns (outcome: Outcome)
      requires w.Valid() && w.Agreed() && w.mirror.flow.OverrideFlow?
      requires var r := w.mirror.flow.override;
               r.pc == At(Apply) && r.payload == config && r.duration == durationSeconds && Agrees(r.window)
      modifies this, w
      ensures w.Valid() && w.Agreed() && old(w.taken) <= w.taken
      ensures w.mirror.flow.OverrideFlow? && w.mirror.flow.override.pc == Closed(outcome)
    {
      hide WaitStep;
      hide SafetyStep;
      hide RevertStep;
      hide Push;
      hide Play;
      hide HandleAll;
      var b, applied := AwaitSet(w, Update(config), w.mirror.flow.override);
      if !applied {
        b := Await(w, 0, w.mirror.flow.override); // audit: apply failed; a failure is only logged
        return Rejected(AuditApplyFailed);
      }
      w.metrics := CountApply(w.metrics);
      b := Await(w, 0, w.mirror.flow.override); // update_override_status: active
      if !b.reply.ok { return Crashed(MarkOverrideActive); }
      outcome := Hold(w, w.clock, w.clock + durationSeconds);
    }

    method Hold(w: World, appliedAt: int, endTime: int) returns (outcome: Outcome)
      requires w.Valid() && w.Agreed() && w.mirror.flow.OverrideFlow?
      requires var r := w.mirror.flow.override;
               && r.pc == At(AuditApplied) && Agrees(r.window)
               && r.window.appliedAt == appliedAt && r.window.endTime == endTime
      modifies this, w
      ensures w.Valid() && w.Agreed() && old(w.taken) <= w.taken
      ensures w.mirror.flow.OverrideFlow? && w.mirror.flow.override.pc == Closed(outcome)
    {
      hide OpeningStep;
      hide SafetyStep;
      hide RevertStep;
      hide Push;
      hide Play;
      hide HandleAll;
      hide LoopHead;
      ghost var r := w.mirror.flow.override;
      var b := Await(w, 0, r); // audit: applied
      if !b.reply.ok { return Crashed(AuditApplied); }
      SignalsKeep(r.window, b.signals);
      var failed;
      ghost var at := HandleAll(r.window, b.signals);
      failed, at := WaitForExpiryOrSignal(w, endTime, r, at);
      if failed.Some? { return Crashed(failed.value); }
      outcome := Conclude(w, appliedAt);
    }

    /** From the end of the wait to the end of the run. */
    method Conclude(w: World, appliedAt: int) returns (outcome: Outcome)
      requires w.Valid() && w.Agreed() && w.mirror.flow.OverrideFlow?
      requires var r := w.mirror.flow.override;
               && r.pc == At(if terminated then AuditTerminated else CheckSafety)
               && r.window.appliedAt == appliedAt && r.window.early == terminated && Agrees(r.window)
      modifies this, w
      ensures w.Valid() && w.Agreed() && old(w.taken) <= w.taken
      ensures w.mirror.flow.OverrideFlow? && w.mirror.flow.override.pc == Closed(outcome)
    {
      hide OpeningStep;
      hide WaitStep;
      hide RevertStep;
      hide Push;
      hide Play;
      hide HandleAll;
      var early := terminated;
      var b;
      if early {
        b := Await(w, 0, w.mirror.flow.override); // audit: terminated early
        if !b.reply.ok { return Crashed(AuditTerminated); }
      }
      outcome := CheckAndRevert(w, appliedAt, early);
    }

    method CheckAndRevert(w: World, appliedAt: int, early: bool) returns (outcome: Outcome)
      requires w.Valid() && w.Agreed() && w.mirror.flow.OverrideFlow?
      requires var r := w.mirror.flow.override;
               r.pc == At(CheckSafety) && r.window.appliedAt == appliedAt && r.window.early == early && Agrees(r.window)
      modifies this, w
      ensures w.Valid() && w.Agreed() && old(w.taken) <= w.taken
      ensures w.mirror.flow.OverrideFlow? && w.mirror.flow.override.pc == Closed(outcome)
    {
      hide OpeningStep;
      hide WaitStep;
      hide RevertStep;
      hide Push;
      hide Play;
      hide HandleAll;
      var b := Await(w, 0, w.mirror.flow.override); // check_reversion_safety
      if !b.reply.ok { return Crashed(CheckSafety); }
      if !b.reply.passes {
        MarkRevertFailed(w, RecordUnsafe, StatusUnsafe, AuditUnsafe);
        b := Await(w, 0, w.mirror.flow.override); // audit: unsafe
        return if b.reply.ok then Rejected(AuditUnsafe) else Crashed(AuditUnsafe);
      }
      outcome := FetchAndRevert(w, appliedAt, early);
    }

    method FetchAndRevert(w: World, appliedAt: int, early: bool) returns (outcome: Outcome)
      requires w.Valid() && w.Agreed() && w.mirror.flow.OverrideFlow?
      requires var r := w.mirror.flow.override;
               r.pc == At(FetchIntent) && r.window.appliedAt == appliedAt && r.window.early == early && Agrees(r.window)
      modifies this, w
      ensures w.Valid() && w.Agreed() && old(w.taken) <= w.taken
      ensures w.mirror.flow.OverrideFlow? && w.mirror.flow.override.pc == Closed(outcome)
    {
      hide OpeningStep;
      hide WaitStep;
      hide RevertStep;
      hide Push;
      hide Play;
      hide HandleAll;
      var b := Await(w, 0, w.mirror.flow.override); // fetch_device_config
      if !b.reply.ok { return Crashed(FetchIntent); }
      outcome := RenderAndRevert(w, appliedAt, early);
    }

    method RenderAndRevert(w: World, appliedAt: int, early: bool) returns (outcome: Outcome)
      requires w.Valid() && w.Agreed() && w.mirror.flow.OverrideFlow?
      requires var r := w.mirror.flow.override;
               r.pc == At(Render) && r.window.appliedAt == appliedAt && r.window.early == early && Agrees(r.window)
      modifies this, w
      ensures w.Valid() && w.Agreed() && old(w.taken) <= w.taken
      ensures w.mirror.flow.OverrideFlow? && w.mirror.flow.override.pc == Closed(outcome)
    {
      hide OpeningStep;
      hide WaitStep;
      hide RevertStep;
      hide Push;
      hide Play;
      hide HandleAll;
      var b := Await(w, 0, w.mirror.flow.override); // render_intended_config
      if !b.reply.ok { return Crashed(Render); }
      var activeSeconds := w.clock - appliedAt;
      assert activeSeconds == w.mirror.flow.override.activeSeconds;
      outcome := RevertAndFinish(w, b.reply.doc, early);
    }

    /** Converge to the current intent, whatever the snapshot was. */
    method RevertAndFinish(w: World, intended: Json, early: bool) returns (outcome: Outcome)
      requires w.Valid() && w.Agreed() && w.mirror.flow.OverrideFlow?
      requires var r := w.mirror.flow.override;
               r.pc == At(Revert) && r.intended == intended && r.window.early == early && Agrees(r.window)
      modifies this, w
      ensures w.Valid() && w.Agreed() && old(w.taken) <= w.taken
      ensures w.mirror.flow.OverrideFlow? && w.mirror.flow.override.pc == Closed(outcome)
    {
      hide OpeningStep;
      hide WaitStep;
      hide SafetyStep;
      hide Push;
      hide Play;
      hide HandleAll;
      var b, reverted := AwaitSet(w, Update(intended), w.mirror.flow.override);
      if !reverted {
        outcome := GiveUp(w);
        return;
      }
      w.metrics := CountRevert(w.metrics);
      outcome := Finish(w, early);
    }

    /** After a revert that no attempt acknowledged. */
    method GiveUp(w: World) returns (outcome: Outcome)
      requires w.Valid() && w.Agreed() && w.mirror.flow.OverrideFlow?
      requires w.mirror.flow.override.pc == At(RecordFailure) && Agrees(w.mirror.flow.override.window)
      modifies this, w
      ensures w.Valid() && w.Agreed() && old(w.taken) <= w.taken
      ensures w.mirror.flow.OverrideFlow? && w.mirror.flow.override.pc == Closed(outcome)
    {
      hide OpeningStep;
      hide WaitStep;
      hide SafetyStep;
      hide Push;
      hide Play;
      hide HandleAll;
      MarkRevertFailed(w, RecordFailure, StatusFailed, AuditRevertFailed);
      var b := Await(w, 0, w.mirror.flow.override); // audit: revert failed; a failure is only logged
      return Rejected(AuditRevertFailed);
    }

    /** After an acknowledged revert. */
    method Finish(w: World, early: bool) returns (outcome: Outcome)
      requires w.Valid() && w.Agreed() && w.mirror.flow.OverrideFlow?
      requires var r := w.mirror.flow.override;
               r.pc == At(MarkFinal) && r.window.early == early && Agrees(r.window)
      modifies this, w
      ensures w.Valid() && w.Agreed() && old(w.taken) <= w.taken
      ensures w.mirror.flow.OverrideFlow? && w.mirror.flow.override.pc == Closed(outcome)
    {
      hide OpeningStep;
      hide WaitStep;
      hide SafetyStep;
      hide Push;
      hide Play;
      hide HandleAll;
      var b := Await(w, 0, w.mirror.flow.override); // update_override_status: a failure is only logged
      b := Await(w, 0, w.mirror.flow.override); // audit: likewise
      return if early then Cancelled else Reverted;
    }

    /** Best effort: record the failed revert, then set the override's status; a failure of either
        skips the rest and is only logged. */
    method MarkRevertFailed(w: World, record: Stage, status: Stage, next: Stage)
      requires w.Valid() && w.Agreed() && w.mirror.flow.OverrideFlow?
      requires BestEffort(record, status, next)
      requires w.mirror.flow.override.pc == At(record) && Agrees(w.mirror.flow.override.window)
      modifies this, w
      ensures w.Valid() && w.Agreed() && old(w.taken) <= w.taken
      ensures w.mirror.flow.OverrideFlow? && w.mirror.flow.override.pc == At(next)
      ensures Agrees(w.mirror.flow.override.window)
    {
      hide OperationalOverride.Step;
      hide BestEffort;
      hide Play;
      hide HandleAll;
      ghost var r := w.mirror.flow.override;
      var b := Await(w, 0, r);
      ghost var heard := r.(window := HandleAll(r.window, b.signals));
      BestEffortSteps(record, status, next, heard, w.device, w.metrics, w.clock, b.reply);
      if b.reply.ok {
        w.metrics := CountFailure(w.metrics);
        ghost var recorded := w.mirror.flow.override;
        b := Await(w, 0, recorded);
        heard := recorded.(window := HandleAll(recorded.window, b.signals));
        BestEffortSteps(record, status, next, heard, w.device, w.metrics, w.clock, b.reply);
      }
    }
  }

  /** The two places where a failed revert is recorded. */
  predicate BestEffort(record: Stage, status: Stage, next: Stage) {
    || (record, status, next) == (RecordUnsafe, StatusUnsafe, AuditUnsafe)
    || (record, status, next) == (RecordFailure, StatusFailed, AuditRevertFailed)
  }

  lemma BestEffortSteps(
      record: Stage, status: Stage, next: Stage, r: Run, d: Device, m: Metrics, now: int, y: Reply)
    requires BestEffort(record, status, next)
    ensures r.pc == At(record) ==>
              OperationalOverride.Step(r, d, m, now, y) ==
              if y.ok then (r.(pc := At(status), failureRecorded := true), d, CountFailure(m))
              else (r.(pc := At(next)), d, m)
    ensures r.pc == At(status) ==> OperationalOverride.Step(r, d, m, now, y) == (r.(pc := At(next)), d, m)
  {
    hide Push;
  }

  /** Signals do not touch the times of the window, nor the reason its wait ended. */
  predicate SameAccount(w: Window, w': Window) {
    w'.endTime == w.endTime && w'.appliedAt == w.appliedAt && w'.early == w.early
  }

  lemma {:induction false} SignalsKeep(w: Window, signals: seq<Signal>)
    ensures SameAccount(w, HandleAll(w, signals))
    ensures signals == [] ==> HandleAll(w, signals) == w
    decreases |signals|
  {
    if signals != [] { SignalsKeep(w, signals[..|signals| - 1]); }
  }
}
