/** One run on a worker: the script of answers its awaits will get, the activities, and the mirror of
    the run in the step machine, which every await advances. */
module Worker {
  import opened Json
  import opened Devices
  import opened Fleet
  import opened FleetSafety
  import opened FleetAnswers
  import Network = NetworkChange
  import Emergency = EmergencyChange
  import Drift = DriftRemediation
  import Override = OperationalOverride

  /** What happens at one await: time passes, signals arrive and are handled, the activity answers. */
  datatype Beat = Beat(elapsed: nat, signals: seq<Override.Signal>, reply: Reply)

  /** One run of the fleet with the part of the fleet it can see. */
  datatype Local = Local(flow: Flow, device: Device, metrics: Override.Metrics, clock: int)

  function Signalled(f: Flow, signals: seq<Override.Signal>): Flow {
    if signals == [] then f
    else FlowSignal(Signalled(f, signals[..|signals| - 1]), signals[|signals| - 1])
  }

  function OneBeat(l: Local, b: Beat): Local {
    var now := l.clock + b.elapsed;
    var f := if l.flow.OverrideFlow? && IsOpen(l.flow) then Signalled(l.flow, b.signals) else l.flow;
    var (f', d', m') := FlowStep(f, l.device, l.metrics, now, b.reply);
    Local(f', d', m', now)
  }

  function Play(l: Local, beats: seq<Beat>): Local {
    if beats == [] then l else OneBeat(Play(l, beats[..|beats| - 1]), beats[|beats| - 1])
  }

  /** The fleet steps of run `i` that one beat stands for. */
  function Sends(i: nat, signals: seq<Override.Signal>): seq<Step> {
    seq(|signals|, k requires 0 <= k < |signals| => Send(i, signals[k]))
  }

  function StepsOf(i: nat, b: Beat): seq<Step> {
    [Tick(b.elapsed)] + Sends(i, b.signals) + [Advance(i, b.reply)]
  }

  function AllStepsOf(i: nat, beats: seq<Beat>): seq<Step> {
    if beats == [] then []
    else AllStepsOf(i, beats[..|beats| - 1]) + StepsOf(i, beats[|beats| - 1])
  }

  function View(s: State, i: nat): Local
    requires i < |s.runs|
  {
    Local(s.runs[i].flow, DeviceOf(s, s.runs[i].host), s.metrics, s.clock)
  }

  // --- a beat, in the fleet -----------------------------------------------------------------

  lemma {:induction false} SignalledKeepsInv(f: Flow, base: Device, d: Device, now: int, signals: seq<Override.Signal>)
    requires FlowInv(f, base, d, now)
    ensures FlowInv(Signalled(f, signals), base, d, now) && IsOpen(Signalled(f, signals)) == IsOpen(f)
    decreases |signals|
  {
    hide FlowInv;
    hide FlowSignal;
    if signals != [] {
      var n := |signals| - 1;
      SignalledKeepsInv(f, base, d, now, signals[..n]);
      FlowSignalKeepsInv(Signalled(f, signals[..n]), base, d, now, signals[n]);
    }
  }

  /** A run that is played keeps the invariant of its workflow. */
  lemma {:induction false} PlayKeepsInv(l: Local, base: Device, beats: seq<Beat>)
    requires FlowInv(l.flow, base, l.device, l.clock)
    ensures var l' := Play(l, beats); FlowInv(l'.flow, base, l'.device, l'.clock)
    decreases |beats|
  {
    hide FlowInv;
    hide FlowStep;
    hide Signalled;
    hide IsOpen;
    if beats != [] {
      var n := |beats| - 1;
      PlayKeepsInv(l, base, beats[..n]);
      var p, b := Play(l, beats[..n]), beats[n];
      FlowTimeKeepsInv(p.flow, base, p.device, p.clock, p.clock + b.elapsed);
      SignalledKeepsInv(p.flow, base, p.device, p.clock + b.elapsed, b.signals);
      var f := if p.flow.OverrideFlow? && IsOpen(p.flow) then Signalled(p.flow, b.signals) else p.flow;
      FlowStepKeepsInv(f, base, p.device, p.metrics, p.clock + b.elapsed, b.reply);
    }
  }

  lemma {:induction false} AfterSends(s: State, i: nat, signals: seq<Override.Signal>)
    requires i < |s.runs|
    ensures After(s, Sends(i, signals)) ==
            if s.runs[i].flow.OverrideFlow? && IsOpen(s.runs[i].flow)
            then s.(runs := s.runs[i := s.runs[i].(flow := Signalled(s.runs[i].flow, signals))]) else s
    decreases |signals|
  {
    if signals == [] {
      assert s.runs[i := s.runs[i]] == s.runs;
    } else {
      var n := |signals| - 1;
      AfterSends(s, i, signals[..n]);
      assert Sends(i, signals)[..n] == Sends(i, signals[..n]);
      SignalledStaysOpen(s.runs[i].flow, signals[..n]);
      if !(s.runs[i].flow.OverrideFlow? && IsOpen(s.runs[i].flow)) { SignalIgnored(s, i, signals[n]); }
      var e := s.runs[i];
      assert s.runs[i := e.(flow := Signalled(e.flow, signals[..n]))][i := e.(flow := Signalled(e.flow, signals))]
          == s.runs[i := e.(flow := Signalled(e.flow, signals))];
    }
  }

  lemma {:induction false} SignalledStaysOpen(f: Flow, signals: seq<Override.Signal>)
    ensures IsOpen(Signalled(f, signals)) == IsOpen(f)
    ensures Signalled(f, signals).OverrideFlow? == f.OverrideFlow?
    decreases |signals|
  {
    if signals != [] { SignalledStaysOpen(f, signals[..|signals| - 1]); }
  }

  lemma SignalIgnored(s: State, i: nat, g: Override.Signal)
    requires i < |s.runs| && !(s.runs[i].flow.OverrideFlow? && IsOpen(s.runs[i].flow))
    ensures Next(s, Send(i, g)) == s
  {
    assert s.runs[i := s.runs[i]] == s.runs;
  }

  lemma ClosedFlowStays(f: Flow, d: Device, m: Override.Metrics, now: int, y: Reply)
    requires !IsOpen(f)
    ensures FlowStep(f, d, m, now, y) == (f, d, m)
  {
  }

  lemma AfterStepsOf(s: State, i: nat, b: Beat)
    ensures After(s, StepsOf(i, b)) == Next(After(Next(s, Tick(b.elapsed)), Sends(i, b.signals)), Advance(i, b.reply))
  {
    hide Next;
    var tick: seq<Step> := [Tick(b.elapsed)];
    assert tick[..0] == [] && After(s, tick) == Next(s, tick[0]);
    AfterConcat(s, tick, Sends(i, b.signals));
    var sent := After(Next(s, tick[0]), Sends(i, b.signals));
    var answer: seq<Step> := [Advance(i, b.reply)];
    assert answer[..0] == [] && After(sent, answer) == Next(sent, answer[0]);
    AfterConcat(s, tick + Sends(i, b.signals), answer);
  }

  lemma BeatIsFleetSteps(s: State, i: nat, b: Beat)
    requires i < |s.runs|
    ensures i < |After(s, StepsOf(i, b)).runs|
    ensures View(After(s, StepsOf(i, b)), i) == OneBeat(View(s, i), b)
  {
    hide FlowStep;
    hide Signalled;
    hide After;
    hide StepsOf;
    var ticked := Next(s, Tick(b.elapsed));
    AfterStepsOf(s, i, b);
    AfterSends(ticked, i, b.signals);
    SignalledStaysOpen(s.runs[i].flow, b.signals);
    if !IsOpen(s.runs[i].flow) {
      ClosedFlowStays(s.runs[i].flow, DeviceOf(s, s.runs[i].host), s.metrics, ticked.clock, b.reply);
    }
  }

  /** A run played alone is a run of the fleet: the other runs need not move for it to do the same. */
  lemma {:induction false} PlayIsFleetRun(s: State, i: nat, beats: seq<Beat>)
    requires i < |s.runs|
    ensures i < |After(s, AllStepsOf(i, beats)).runs|
    ensures View(After(s, AllStepsOf(i, beats)), i) == Play(View(s, i), beats)
    decreases |beats|
  {
    hide View;
    hide OneBeat;
    hide StepsOf;
    hide Next;
    if beats != [] {
      var n := |beats| - 1;
      PlayIsFleetRun(s, i, beats[..n]);
      AfterConcat(s, AllStepsOf(i, beats[..n]), StepsOf(i, beats[n]));
      BeatIsFleetSteps(After(s, AllStepsOf(i, beats[..n])), i, beats[n]);
    }
  }

  // --- and back -----------------------------------------------------------------------------

  lemma {:induction false} OnlyOverridesListen(f: Flow, signals: seq<Override.Signal>)
    requires !f.OverrideFlow?
    ensures Signalled(f, signals) == f
    decreases |signals|
  {
    if signals != [] { OnlyOverridesListen(f, signals[..|signals| - 1]); }
  }

  /** What a run does next does not depend on the metrics. */
  lemma MetricsDoNotMatter(f: Flow, d: Device, m: Override.Metrics, m': Override.Metrics, now: int, y: Reply)
    ensures FlowStep(f, d, m, now, y).0 == FlowStep(f, d, m', now, y).0
    ensures FlowStep(f, d, m, now, y).1 == FlowStep(f, d, m', now, y).1
  {
    hide Push;
    hide Network.Step;
    hide Emergency.Step;
    hide Drift.Step;
    hide Override.WaitStep;
  }

  /** A play of `beats` from `l`, and signals since the last of them, account for execution `e`: for its
      flow, for the device as it last left it, and for the time. */
  ghost predicate Accounts(l: Local, beats: seq<Beat>, since: seq<Override.Signal>, e: Execution, now: int) {
    var p := Play(l, beats);
    e.flow == Signalled(p.flow, since) && e.last == p.device && p.clock <= now
  }

  lemma BeatOfAdvance(
      p: Local, since: seq<Override.Signal>, f: Flow, m: Override.Metrics, now: int, y: Reply)
    requires f == Signalled(p.flow, since) && IsOpen(f) && p.clock <= now
    ensures var after := OneBeat(p, Beat(now - p.clock, since, y));
            && after.flow == FlowStep(f, p.device, m, now, y).0
            && after.device == FlowStep(f, p.device, m, now, y).1
            && after.clock == now
  {
    hide FlowStep;
    hide IsOpen;
    SignalledStaysOpen(p.flow, since);
    if !p.flow.OverrideFlow? { OnlyOverridesListen(p.flow, since); }
    hide Signalled;
    MetricsDoNotMatter(f, p.device, m, p.metrics, now, y);
  }

  lemma AdvanceIsBeat(l: Local, beats: seq<Beat>, since: seq<Override.Signal>, e: Execution,
                      m: Override.Metrics, now: int, y: Reply)
    requires Accounts(l, beats, since, e, now) && IsOpen(e.flow)
    ensures var beat := Beat(now - Play(l, beats).clock, since, y);
            var (f, d, _) := FlowStep(e.flow, e.last, m, now, y);
            Accounts(l, beats + [beat], [], e.(flow := f, last := d), now)
  {
    hide Play;
    hide FlowStep;
    hide Signalled;
    hide IsOpen;
    hide OneBeat;
    var p := Play(l, beats);
    BeatOfAdvance(p, since, e.flow, m, now, y);
    PlaySnoc(l, beats, Beat(now - p.clock, since, y));
    NoSignals(FlowStep(e.flow, e.last, m, now, y).0);
  }

  lemma PlaySnoc(l: Local, beats: seq<Beat>, beat: Beat)
    ensures Play(l, beats + [beat]) == OneBeat(Play(l, beats), beat)
  {
    assert (beats + [beat])[..|beats|] == beats;
  }

  lemma NoSignals(f: Flow)
    ensures Signalled(f, []) == f
  {
  }

  lemma SignalledSnoc(f: Flow, signals: seq<Override.Signal>, g: Override.Signal)
    ensures Signalled(f, signals + [g]) == FlowSignal(Signalled(f, signals), g)
  {
    assert (signals + [g])[..|signals|] == signals;
  }

  /** Any run of an interleaved fleet, followed from any point at which it is open, is played by some
      beats, up to the metrics that it shares with the others. */
  lemma {:induction false} FleetRunIsPlay(s: State, steps: seq<Step>, i: nat)
    returns (beats: seq<Beat>, since: seq<Override.Signal>)
    requires Inv(s) && i < |s.runs| && IsOpen(s.runs[i].flow)
    ensures i < |After(s, steps).runs|
    ensures Accounts(View(s, i), beats, since, After(s, steps).runs[i], After(s, steps).clock)
    decreases |steps|
  {
    hide IsOpen;
    hide FlowInv;
    hide MetricsInv;
    if steps == [] {
      beats, since := [], [];
      NoSignals(s.runs[i].flow);
    } else {
      var n := |steps| - 1;
      beats, since := FleetRunIsPlay(s, steps[..n], i);
      var t, step, l := After(s, steps[..n]), steps[n], View(s, i);
      InvKept(s, steps[..n]);
      beats, since := OneMoreStep(l, beats, since, t, step, i);
      hide Next;
      hide Accounts;
    }
  }

  lemma OneMoreStep(l: Local, beats: seq<Beat>, since: seq<Override.Signal>, t: State, step: Step, i: nat)
    returns (beats': seq<Beat>, since': seq<Override.Signal>)
    requires Inv(t) && i < |t.runs| && Accounts(l, beats, since, t.runs[i], t.clock)
    ensures i < |Next(t, step).runs|
    ensures Accounts(l, beats', since', Next(t, step).runs[i], Next(t, step).clock)
  {
    hide IsOpen;
    hide FlowInv;
    hide MetricsInv;
    hide FlowStep;
    hide FlowSignal;
    hide StartFlow;
    hide Play;
    hide Signalled;
    beats', since' := beats, since;
    var e := t.runs[i];
    match step
    case Advance(j, y) =>
      if j == i && IsOpen(e.flow) {
        AdvanceIsBeat(l, beats, since, e, t.metrics, t.clock, y);
        beats', since' := beats + [Beat(t.clock - Play(l, beats).clock, since, y)], [];
      }
    case Send(j, g) =>
      if j == i && IsOpen(e.flow) {
        SignalledSnoc(Play(l, beats).flow, since, g);
        since' := since + [g];
      }
    case _ =>
  }

  // --- what a played run has heard ----------------------------------------------------------

  /** The answers to the activities of a run that is played. */
  function HeardBy(l: Local, beats: seq<Beat>): seq<Answer> {
    if beats == [] then []
    else
      var n := |beats| - 1;
      var p := Play(l, beats[..n]);
      OneMore(p.flow, HeardBy(l, beats[..n]), beats[n].reply, p.clock + beats[n].elapsed)
  }

  /** The signals that it handled. */
  function SentBy(l: Local, beats: seq<Beat>): seq<Override.Signal> {
    if beats == [] then []
    else
      var n := |beats| - 1;
      SentBy(l, beats[..n]) + if IsOpen(Play(l, beats[..n]).flow) then beats[n].signals else []
  }

  lemma {:induction false} SignalledTold(
      q: Request, base: Device, f: Flow, ys: seq<Answer>, gs: seq<Override.Signal>,
      signals: seq<Override.Signal>, now: int)
    requires FlowTold(q, base, f, ys, gs, now)
    ensures FlowTold(q, base, Signalled(f, signals), ys, gs + signals, now)
    decreases |signals|
  {
    hide FlowTold;
    hide FlowSignal;
    if signals == [] {
      assert gs + signals == gs;
    } else {
      var n := |signals| - 1;
      SignalledTold(q, base, f, ys, gs, signals[..n], now);
      FlowSignalTold(q, base, Signalled(f, signals[..n]), ys, gs + signals[..n], signals[n], now);
      assert gs + signals == gs + signals[..n] + [signals[n]];
    }
  }

  lemma {:induction false} SignalledListens(f: Flow, signals: seq<Override.Signal>)
    ensures Listens(Signalled(f, signals)) == Listens(f)
    decreases |signals|
  {
    if signals != [] { SignalledListens(f, signals[..|signals| - 1]); }
  }

  /** One beat, for a run that is told. */
  lemma BeatTold(q: Request, base: Device, p: Local, b: Beat, ys: seq<Answer>, gs: seq<Override.Signal>)
    requires FlowTold(q, base, p.flow, ys, gs, p.clock) && FlowInv(p.flow, base, p.device, p.clock)
    ensures var p' := OneBeat(p, b);
            && p'.clock == p.clock + b.elapsed
            && FlowTold(q, base, p'.flow, OneMore(p.flow, ys, b.reply, p'.clock),
                        gs + if IsOpen(p.flow) then b.signals else [], p'.clock)
  {
    hide FlowTold;
    hide FlowInv;
    hide FlowStep;
    hide Signalled;
    hide IsOpen;
    hide Listens;
    var f, now := p.flow, p.clock + b.elapsed;
    FlowTimeTold(q, base, f, ys, gs, p.clock, now);
    FlowTimeKeepsInv(f, base, p.device, p.clock, now);
    if IsOpen(f) {
      SignalledTold(q, base, f, ys, gs, b.signals, now);
      SignalledKeepsInv(f, base, p.device, now, b.signals);
      SignalledListens(f, b.signals);
      if !f.OverrideFlow? { OnlyOverridesListen(f, b.signals); }
      FlowStepTold(q, base, Signalled(f, b.signals), p.device, p.metrics, now, b.reply, ys, gs + b.signals);
    } else {
      ClosedFlowStays(f, p.device, p.metrics, now, b.reply);
      ListensIsOpen(f);
      assert gs + [] == gs;
    }
  }

  /** The answers and signals of a run that is played from its start account for it. */
  lemma {:induction false} PlayTold(q: Request, l: Local, beats: seq<Beat>)
    requires l.flow == StartFlow(q)
    ensures var p := Play(l, beats);
            FlowTold(q, l.device, p.flow, HeardBy(l, beats), SentBy(l, beats), p.clock)
    decreases |beats|
  {
    hide FlowTold;
    hide FlowInv;
    hide OneBeat;
    hide StartFlow;
    if beats == [] {
      StartTold(q, l.device, l.clock);
    } else {
      var n := |beats| - 1;
      PlayTold(q, l, beats[..n]);
      StartFlowHolds(q, l.device, l.clock);
      PlayKeepsInv(l, l.device, beats[..n]);
      BeatTold(q, l.device, Play(l, beats[..n]), beats[n], HeardBy(l, beats[..n]), SentBy(l, beats[..n]));
      hide OneMore;
      hide IsOpen;
    }
  }

  const QUIET := Reply(true, [], Obj(map[]), Obj(map[]), true, true)

  class World {
    var device: Device
    var metrics: Override.Metrics
    var clock: int
    var script: seq<Beat>
    ghost const start: Local
    ghost var taken: seq<Beat>
    ghost var mirror: Local

    ghost predicate Valid()
      reads this
    {
      mirror == Play(start, taken)
    }

    /** The run has done to the world what the step machine says. */
    ghost predicate Agreed()
      reads this
    {
      device == mirror.device && metrics == mirror.metrics && clock == mirror.clock
    }

    constructor (device: Device, metrics: Override.Metrics, clock: int, script: seq<Beat>, ghost flow: Flow)
      ensures Valid() && Agreed()
      ensures start == Local(flow, device, metrics, clock) == mirror && taken == []
      ensures this.device == device && this.metrics == metrics && this.clock == clock && this.script == script
    {
      this.device, this.metrics, this.clock, this.script := device, metrics, clock, script;
      start := Local(flow, device, metrics, clock);
      mirror := Local(flow, device, metrics, clock);
      taken := [];
    }

    /** The next await. When the script has run out, activities answer well, no signal arrives, and a
        wait lasts as long as the caller is prepared to wait. */
    method Await(patience: nat) returns (b: Beat)
      requires Valid()
      modifies this`clock, this`script, this`taken, this`mirror
      ensures Valid() && taken == old(taken) + [b] && mirror == OneBeat(old(mirror), b)
      ensures clock == old(clock) + b.elapsed
      ensures old(script) != [] ==> b == old(script)[0] && script == old(script)[1..]
      ensures old(script) == [] ==> b == Beat(patience, [], QUIET) && script == []
    {
      if script == [] {
        b := Beat(patience, [], QUIET);
      } else {
        b := script[0];
        script := script[1..];
      }
      clock := clock + b.elapsed;
      taken := taken + [b];
      assert taken[..|taken| - 1] == old(taken);
      mirror := OneBeat(mirror, b);
    }

    /** An activity without an effect that the model keeps: an audit event, a stored backup, a
        validation, a status of an override, or the record of an extension. */
    method Perform() returns (b: Beat)
      requires Valid()
      modifies this`clock, this`script, this`taken, this`mirror
      ensures Valid() && taken == old(taken) + [b] && mirror == OneBeat(old(mirror), b)
      ensures clock == old(clock) + b.elapsed
      ensures Progress(old(script), script, b)
    {
      b := Await(0);
    }

    method UpdateDeviceStatus(status: Status) returns (b: Beat)
      requires Valid()
      modifies this`clock, this`script, this`taken, this`mirror, this`device
      ensures Valid() && taken == old(taken) + [b] && mirror == OneBeat(old(mirror), b)
      ensures clock == old(clock) + b.elapsed
      ensures Progress(old(script), script, b)
      ensures device == if b.reply.ok then old(device).(status := status) else old(device)
    {
      b := Await(0);
      if b.reply.ok {
        device := device.(status := status);
      }
    }

    /** A gNMI SET under the retry policy: up to three attempts. */
    method GnmiSet(write: Write) returns (b: Beat, acknowledged: bool)
      requires Valid()
      modifies this`clock, this`script, this`taken, this`mirror, this`device
      ensures Valid() && taken == old(taken) + [b] && mirror == OneBeat(old(mirror), b)
      ensures clock == old(clock) + b.elapsed
      ensures Progress(old(script), script, b)
      ensures (device, acknowledged) == Push(old(device), write, b.reply.lost)
    {
      b := Await(0);
      var lost := b.reply.lost;
      var attempt := 0;
      while attempt < MAX_ATTEMPTS && attempt < |lost|
        modifies this`device
        invariant 0 <= attempt <= MAX_ATTEMPTS && attempt <= |lost|
        invariant device.status == old(device).status
        invariant Deliver(device.config, write, lost[attempt..], MAX_ATTEMPTS - attempt)
                  == Deliver(old(device).config, write, lost, MAX_ATTEMPTS)
      {
        if lost[attempt] {
          device := device.(config := Set(device.config, write));
        }
        assert lost[attempt..][1..] == lost[attempt + 1..];
        attempt := attempt + 1;
      }
      acknowledged := attempt < MAX_ATTEMPTS;
      if acknowledged {
        device := device.(config := Set(device.config, write));
      }
    }
  }

  /** The script only shrinks, and an empty script brings no signals. */
  predicate Progress(before: seq<Beat>, after: seq<Beat>, b: Beat) {
    if before == [] then after == [] && b.signals == [] else after == before[1..]
  }
}
