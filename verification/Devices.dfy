/** The device as the workflows see it: its running configuration, its lifecycle status in the
    source of truth, and what one activity does to them.

    An activity that writes over gNMI is tried up to three times. An attempt that fails may still
    have landed: the response can be lost, or refused after the change took effect. */
module Devices {
  import opened Json

  datatype Status = Active | Provisioning | Maintenance | Drained

  datatype Device = Device(config: Json, status: Status)

  /** SET update (deploy, override, remediation) or SET replace (rollback) at the root. */
  datatype Write = Update(payload: Json) | Replace(payload: Json)

  const MAX_ATTEMPTS := 3

  /** One environment answer to an awaited activity. `ok` says whether a plain activity returned;
      `lost` lists the failed attempts of a gNMI write, each true when it landed anyway; `renders`
      whether the templates accept what a fetch returned, `doc` and `bgp` the interface and BGP payloads
      they make of it; and `passes` the verdict that a check returned. */
  datatype Reply = Reply(ok: bool, lost: seq<bool>, doc: Json, bgp: Json, renders: bool, passes: bool)

  /** An answer with the time at which it arrived. */
  datatype Answer = Answer(reply: Reply, at: int)

  /** Answer `i` is there, and is that of a plain activity that returned. */
  predicate Ok(ys: seq<Answer>, i: nat) {
    i < |ys| && ys[i].reply.ok
  }

  /** Answer `i` is there, and is that of a write that did not lose all three of its attempts. */
  predicate Acked(ys: seq<Answer>, i: nat) {
    i < |ys| && |ys[i].reply.lost| < 3
  }

  /** Answers arrive in order, and not later than now. */
  predicate InOrder(ys: seq<Answer>, now: int) {
    (forall i, j | 0 <= i <= j < |ys| :: ys[i].at <= ys[j].at) && forall i | 0 <= i < |ys| :: ys[i].at <= now
  }

  lemma OneMoreInOrder(ys: seq<Answer>, a: Answer, now: int)
    requires InOrder(ys, now) && a.at == now
    ensures InOrder(ys + [a], now)
    ensures forall i | 0 <= i < |ys| :: ys[i].at <= now
  {
  }

  lemma OneMoreAnswer(ys: seq<Answer>, a: Answer)
    ensures var longer := ys + [a];
            && (forall i | 0 <= i < |ys| ::
                  longer[i] == ys[i] && Ok(longer, i) == Ok(ys, i) && Acked(longer, i) == Acked(ys, i))
            && Ok(longer, |ys|) == a.reply.ok && Acked(longer, |ys|) == (|a.reply.lost| < 3)
            && longer[|ys|] == a && |longer| == |ys| + 1
    ensures forall i: nat | i >= |ys| :: !Ok(ys, i) && !Acked(ys, i)
  {
  }

  function Set(config: Json, w: Write): Json {
    match w
    case Update(payload) => Merge(config, payload)
    case Replace(payload) => payload
  }

  /** A write under the device retry policy: the configuration afterwards, and whether some attempt
      was acknowledged. */
  function Deliver(config: Json, w: Write, lost: seq<bool>, attempts: nat): (Json, bool)
    decreases attempts
  {
    if attempts == 0 then (config, false)
    else if lost == [] then (Set(config, w), true)
    else Deliver(if lost[0] then Set(config, w) else config, w, lost[1..], attempts - 1)
  }

  /** The same on a device, under the policy of three attempts. */
  function Push(d: Device, w: Write, lost: seq<bool>): (r: (Device, bool)) {
    var (config, acked) := Deliver(d.config, w, lost, MAX_ATTEMPTS);
    (d.(config := config), acked)
  }

  lemma SetIdempotent(config: Json, w: Write)
    ensures Set(Set(config, w), w) == Set(config, w)
  {
    if w.Update? { MergeIdempotent(config, w.payload); }
  }

  lemma {:induction false} DeliverTwice(config: Json, w: Write, lost: seq<bool>, attempts: nat)
    ensures Deliver(Set(config, w), w, lost, attempts).0 == Set(config, w)
    ensures Deliver(config, w, lost, attempts).1 == (|lost| < attempts)
    decreases attempts
  {
    SetIdempotent(config, w);
    if attempts > 0 && lost != [] {
      DeliverTwice(config, w, lost[1..], attempts - 1);
      DeliverTwice(Set(config, w), w, lost[1..], attempts - 1);
    }
  }

  /** However many of the attempts landed, the write has happened exactly once or not at all, and
      not at all only when every attempt failed without landing. */
  lemma {:induction false} DeliverCollapses(config: Json, w: Write, lost: seq<bool>, attempts: nat)
    ensures Deliver(config, w, lost, attempts) ==
            (if |lost| < attempts || (exists i | 0 <= i < attempts && i < |lost| :: lost[i])
             then Set(config, w) else config,
             |lost| < attempts)
    decreases attempts
  {
    DeliverTwice(config, w, lost, attempts);
    if attempts > 0 && lost != [] {
      var rest := lost[1..];
      if lost[0] {
        DeliverTwice(config, w, rest, attempts - 1);
      } else {
        DeliverCollapses(config, w, rest, attempts - 1);
        if exists i | 0 <= i < attempts && i < |lost| :: lost[i] {
          var i :| 0 <= i < attempts && i < |lost| && lost[i];
          assert rest[i - 1];
        }
        if exists i | 0 <= i < attempts - 1 && i < |rest| :: rest[i] {
          var i :| 0 <= i < attempts - 1 && i < |rest| && rest[i];
          assert lost[i + 1];
        }
      }
    }
  }

  /** Whether a write reached the device at all. */
  predicate Landed(lost: seq<bool>) {
    |lost| < 3 || exists i | 0 <= i < 3 :: lost[i]
  }

  lemma PushCollapses(d: Device, w: Write, lost: seq<bool>)
    ensures Push(d, w, lost) ==
            (d.(config := if Landed(lost) then Set(d.config, w) else d.config), |lost| < 3)
    ensures |lost| < 3 ==> Landed(lost)
  {
    DeliverCollapses(d.config, w, lost, MAX_ATTEMPTS);
  }

  lemma PushAcks(d: Device, w: Write, lost: seq<bool>)
    ensures Push(d, w, lost).1 == (|lost| < 3)
  {
    PushCollapses(d, w, lost);
  }

  /** A rollback that some attempt acknowledged restores the backup exactly, whatever any number of
      landed and lost deploy attempts left behind. */
  lemma RollbackRestores(backup: Json, payload: Json, lostDeploy: seq<bool>, lostRollback: seq<bool>)
    ensures var (left, _) := Deliver(backup, Update(payload), lostDeploy, MAX_ATTEMPTS);
            var (restored, acked) := Deliver(left, Replace(backup), lostRollback, MAX_ATTEMPTS);
            acked ==> restored == backup
  {
    var (left, _) := Deliver(backup, Update(payload), lostDeploy, MAX_ATTEMPTS);
    DeliverCollapses(left, Replace(backup), lostRollback, MAX_ATTEMPTS);
  }
}
