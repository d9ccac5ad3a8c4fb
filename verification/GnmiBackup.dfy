/** From a gNMI GET response to a backup: every root-level update merged into one document, or a
    refusal that names the reason. */
module GnmiBackup {
  import opened Json
  import opened Devices

  /** One update of a notification: without a value, or carrying one for a path. */
  datatype Update = NoValue | Carries(path: Option<string>, val: Json)

  datatype BackupError = NonRootPath(path: string) | NotAnObject | Overlap(keys: set<string>) | NoUpdate

  datatype Extraction = Backup(config: Doc) | Refused(error: BackupError)

  predicate IsRoot(path: Option<string>) {
    path.None? || path.value == "" || path.value == "/"
  }

  /** The loop's variables `merged` and `saw_update`, or the exception that ended it. */
  datatype Progress = Merging(merged: Doc, sawUpdate: bool) | Failed(error: BackupError)

  function Absorb(p: Progress, u: Update): Progress {
    if p.Failed? || u.NoValue? then p
    else if !IsRoot(u.path) then Failed(NonRootPath(u.path.value))
    else if !u.val.Obj? then Failed(NotAnObject)
    else if p.merged.Keys * u.val.fields.Keys != {} then Failed(Overlap(p.merged.Keys * u.val.fields.Keys))
    else Merging(p.merged + u.val.fields, true)
  }

  function AbsorbAll(us: seq<Update>): Progress {
    if us == [] then Merging(map[], false) else Absorb(AbsorbAll(us[..|us| - 1]), us[|us| - 1])
  }

  function Extract(us: seq<Update>): Extraction {
    match AbsorbAll(us)
    case Failed(e) => Refused(e)
    case Merging(merged, sawUpdate) => if sawUpdate then Backup(merged) else Refused(NoUpdate)
  }

  function Flatten(notifications: seq<seq<Update>>): seq<Update> {
    if notifications == [] then []
    else Flatten(notifications[..|notifications| - 1]) + notifications[|notifications| - 1]
  }

  method ExtractConfigPayload(notifications: seq<seq<Update>>) returns (r: Extraction)
    ensures r == Extract(Flatten(notifications))
  {
    hide Flatten;
    hide AbsorbAll;
    NothingAbsorbed(notifications);
    var merged: Doc := map[];
    var sawUpdate := false;
    ghost var seen: seq<Update> := [];
    var i := 0;
    while i < |notifications|
      invariant 0 <= i <= |notifications|
      invariant seen == Flatten(notifications[..i]) && AbsorbAll(seen) == Merging(merged, sawUpdate)
    {
      var updates := notifications[i];
      ghost var before := seen;
      FlattenPrefix(notifications, i + 1);
      FlattenNext(notifications, i);
      var j := 0;
      while j < |updates|
        invariant 0 <= j <= |updates|
        invariant seen == before + updates[..j] && AbsorbAll(seen) == Merging(merged, sawUpdate)
      {
        var update := updates[j];
        ghost var next := before + updates[..j + 1];
        assert next == seen + [update] && next <= before + updates;
        AbsorbNext(seen, update);
        if update.Carries? {
          if !IsRoot(update.path) {
            FailureStays(Flatten(notifications), next);
            return Refused(NonRootPath(update.path.value));
          }
          if !update.val.Obj? {
            FailureStays(Flatten(notifications), next);
            return Refused(NotAnObject);
          }
          var overlap := merged.Keys * update.val.fields.Keys;
          if overlap != {} {
            FailureStays(Flatten(notifications), next);
            return Refused(Overlap(overlap));
          }
          merged := merged + update.val.fields;
          sawUpdate := true;
        }
        seen := next;
        j := j + 1;
      }
      assert updates[..|updates|] == updates;
      i := i + 1;
    }
    assert notifications[..|notifications|] == notifications;
    return if sawUpdate then Backup(merged) else Refused(NoUpdate);
  }

  lemma NothingAbsorbed(notifications: seq<seq<Update>>)
    ensures Flatten(notifications[..0]) == [] && AbsorbAll([]) == Merging(map[], false)
  {
  }

  lemma AbsorbNext(us: seq<Update>, u: Update)
    ensures AbsorbAll(us + [u]) == Absorb(AbsorbAll(us), u)
  {
    assert (us + [u])[..|us|] == us;
  }

  lemma FlattenNext(notifications: seq<seq<Update>>, i: nat)
    requires i < |notifications|
    ensures Flatten(notifications[..i + 1]) == Flatten(notifications[..i]) + notifications[i]
  {
    assert notifications[..i + 1][..i] == notifications[..i];
  }

  lemma {:induction false} FlattenPrefix(notifications: seq<seq<Update>>, i: nat)
    requires i <= |notifications|
    ensures Flatten(notifications[..i]) <= Flatten(notifications)
    decreases |notifications| - i
  {
    if i == |notifications| {
      assert notifications[..i] == notifications;
    } else {
      assert notifications[..i + 1][..i] == notifications[..i];
      FlattenPrefix(notifications, i + 1);
    }
  }

  lemma {:induction false} FailureStays(us: seq<Update>, prefix: seq<Update>)
    requires prefix <= us && AbsorbAll(prefix).Failed?
    ensures AbsorbAll(us) == AbsorbAll(prefix)
    decreases |us|
  {
    if |prefix| < |us| {
      FailureStays(us[..|us| - 1], prefix);
    } else {
      assert us == prefix;
    }
  }

  // --- when it succeeds, and with what ------------------------------------------------------

  predicate RootObject(u: Update) {
    u.NoValue? || (IsRoot(u.path) && u.val.Obj?)
  }

  predicate Holds(u: Update, key: string) {
    u.Carries? && u.val.Obj? && key in u.val.fields
  }

  ghost predicate Disjoint(us: seq<Update>) {
    forall i, j, k | 0 <= i < j < |us| :: !(Holds(us[i], k) && Holds(us[j], k))
  }

  /** Every value carried is a root-level object, and no top-level key is carried twice. */
  ghost predicate Mergeable(us: seq<Update>) {
    (forall i | 0 <= i < |us| :: RootObject(us[i])) && Disjoint(us)
  }

  predicate SomeValue(us: seq<Update>) {
    exists i | 0 <= i < |us| :: us[i].Carries?
  }

  /** `config` holds exactly the entries that the updates carry. */
  ghost predicate UnionOf(config: Doc, us: seq<Update>) {
    && (forall i, k | 0 <= i < |us| && Holds(us[i], k) :: k in config && config[k] == us[i].val.fields[k])
    && (forall k | k in config :: exists i | 0 <= i < |us| :: Holds(us[i], k))
  }

  lemma {:induction false} AbsorbAllMeans(us: seq<Update>)
    ensures AbsorbAll(us).Merging? <==> Mergeable(us)
    ensures AbsorbAll(us).Merging? ==> UnionOf(AbsorbAll(us).merged, us) && AbsorbAll(us).sawUpdate == SomeValue(us)
    decreases |us|
  {
    if us != [] {
      var n := |us| - 1;
      var front, last, p := us[..n], us[n], AbsorbAll(us[..n]);
      AbsorbAllMeans(front);
      hide Mergeable;
      hide UnionOf;
      if Mergeable(us) { FrontMergeable(us); }
      if p.Merging? {
        LastMergeable(us, p.merged);
        SomeValueSnoc(us);
        if Mergeable(us) { LastUnion(us, p.merged); }
      }
    }
  }

  lemma FrontMergeable(us: seq<Update>)
    requires us != [] && Mergeable(us)
    ensures Mergeable(us[..|us| - 1])
  {
    var front := us[..|us| - 1];
    forall i, j, k | 0 <= i < j < |front| ensures !(Holds(front[i], k) && Holds(front[j], k)) {
      assert !(Holds(us[i], k) && Holds(us[j], k));
    }
  }

  lemma SomeValueSnoc(us: seq<Update>)
    requires us != []
    ensures SomeValue(us) <==> SomeValue(us[..|us| - 1]) || us[|us| - 1].Carries?
  {
    if SomeValue(us[..|us| - 1]) {
      var i :| 0 <= i < |us| - 1 && us[..|us| - 1][i].Carries?;
      assert us[i].Carries?;
    }
    if i :| 0 <= i < |us| && us[i].Carries? && i < |us| - 1 {
      assert us[..|us| - 1][i].Carries?;
    }
  }

  lemma LastMergeable(us: seq<Update>, merged: Doc)
    requires us != [] && Mergeable(us[..|us| - 1]) && UnionOf(merged, us[..|us| - 1])
    ensures Mergeable(us) <==>
            var last := us[|us| - 1];
            RootObject(last) && (last.Carries? ==> merged.Keys * last.val.fields.Keys == {})
  {
    var front, last := us[..|us| - 1], us[|us| - 1];
    if Mergeable(us) && last.Carries? {
      forall k | k in merged ensures k !in last.val.fields {
        var i :| 0 <= i < |front| && Holds(front[i], k);
        assert !(Holds(us[i], k) && Holds(last, k));
      }
    }
    if RootObject(last) && (last.Carries? ==> merged.Keys * last.val.fields.Keys == {}) {
      forall i, j, k | 0 <= i < j < |us| ensures !(Holds(us[i], k) && Holds(us[j], k)) {
        if j < |front| {
          assert !(Holds(front[i], k) && Holds(front[j], k));
        } else if Holds(last, k) {
          assert k !in merged.Keys * last.val.fields.Keys;
        }
      }
    }
  }

  lemma LastUnion(us: seq<Update>, merged: Doc)
    requires us != [] && UnionOf(merged, us[..|us| - 1]) && Mergeable(us)
    ensures UnionOf(Absorb(Merging(merged, true), us[|us| - 1]).merged, us)
  {
  }

  /** Extraction succeeds exactly when some update carries a value and all carried values are root
      objects with pairwise disjoint keys; the backup then is their union. */
  lemma ExtractsIff(us: seq<Update>)
    ensures Extract(us).Backup? <==> SomeValue(us) && Mergeable(us)
    ensures Extract(us).Backup? ==> UnionOf(Extract(us).config, us)
    ensures Extract(us) == Refused(NoUpdate) <==> !SomeValue(us)
  {
    AbsorbAllMeans(us);
    if !SomeValue(us) {
      forall i | 0 <= i < |us| ensures us[i].NoValue? {
        assert !us[i].Carries?;
      }
      assert Mergeable(us);
    }
    if Extract(us) == Refused(NoUpdate) { OnlyEmptyIsNoUpdate(us); }
  }

  lemma {:induction false} OnlyEmptyIsNoUpdate(us: seq<Update>)
    ensures AbsorbAll(us) != Failed(NoUpdate)
    decreases |us|
  {
    if us != [] { OnlyEmptyIsNoUpdate(us[..|us| - 1]); }
  }

  lemma UnionIsUnique(a: Doc, b: Doc, us: seq<Update>, vs: seq<Update>)
    requires UnionOf(a, us) && UnionOf(b, vs)
    requires forall u :: u in us <==> u in vs
    ensures a == b
  {
    forall k ensures (k in a ==> k in b && a[k] == b[k]) && (k in b ==> k in a) {
      if k in a {
        var i :| 0 <= i < |us| && Holds(us[i], k);
        assert us[i] in vs;
      }
      if k in b {
        var i :| 0 <= i < |vs| && Holds(vs[i], k);
        assert vs[i] in us;
      }
    }
  }

  lemma TwiceInMultiset(us: seq<Update>, i: nat, j: nat)
    requires i < j < |us| && us[i] == us[j]
    ensures multiset(us)[us[i]] >= 2
  {
    assert us == us[..j] + [us[j]] + us[j + 1..];
    assert us[..j][i] in multiset(us[..j]);
  }

  lemma TwiceInSequence(us: seq<Update>, u: Update) returns (i: nat, j: nat)
    requires multiset(us)[u] >= 2
    ensures i < j < |us| && us[i] == us[j] == u
  {
    assert u in multiset(us);
    i :| i < |us| && us[i] == u;
    assert us == us[..i] + [u] + us[i + 1..];
    if u in us[..i] {
      var k :| 0 <= k < i && us[..i][k] == u;
      i, j := k, i;
    } else {
      assert u in multiset(us[i + 1..]);
      var k :| 0 <= k < |us[i + 1..]| && us[i + 1..][k] == u;
      j := i + 1 + k;
    }
  }

  lemma DisjointPair(us: seq<Update>, a: nat, b: nat, k: string)
    requires a < |us| && b < |us| && a != b && Disjoint(us)
    ensures !(Holds(us[a], k) && Holds(us[b], k))
  {
    var i, j := if a < b then a else b, if a < b then b else a;
    assert !(Holds(us[i], k) && Holds(us[j], k));
  }

  lemma MergeableKept(us: seq<Update>, vs: seq<Update>)
    requires multiset(us) == multiset(vs) && Mergeable(us)
    ensures Mergeable(vs)
  {
    forall i | 0 <= i < |vs| ensures RootObject(vs[i]) {
      assert vs[i] in multiset(us);
    }
    forall i, j, k | 0 <= i < j < |vs| ensures !(Holds(vs[i], k) && Holds(vs[j], k)) {
      if vs[i] == vs[j] {
        TwiceInMultiset(vs, i, j);
        var a, b := TwiceInSequence(us, vs[i]);
        DisjointPair(us, a, b, k);
      } else {
        assert vs[i] in multiset(us) && vs[j] in multiset(us);
        var a :| 0 <= a < |us| && us[a] == vs[i];
        var b :| 0 <= b < |us| && us[b] == vs[j];
        DisjointPair(us, a, b, k);
      }
    }
  }

  /** Neither the order of the notifications nor that of the updates matters to whether there is a
      backup, or to the backup. */
  lemma OrderIrrelevant(ns: seq<seq<Update>>, ms: seq<seq<Update>>)
    requires multiset(Flatten(ns)) == multiset(Flatten(ms))
    ensures Extract(Flatten(ns)).Backup? <==> Extract(Flatten(ms)).Backup?
    ensures Extract(Flatten(ns)).Backup? ==> Extract(Flatten(ns)) == Extract(Flatten(ms))
  {
    var us, vs := Flatten(ns), Flatten(ms);
    ExtractsIff(us);
    ExtractsIff(vs);
    forall u ensures u in us <==> u in vs {
      assert u in us <==> u in multiset(us);
      assert u in vs <==> u in multiset(vs);
    }
    if Mergeable(us) { MergeableKept(us, vs); }
    if Mergeable(vs) { MergeableKept(vs, us); }
    if Extract(us).Backup? {
      assert SomeValue(vs) by {
        var i :| 0 <= i < |us| && us[i].Carries?;
        assert us[i] in vs;
      }
      UnionIsUnique(Extract(us).config, Extract(vs).config, us, vs);
    }
    if Extract(vs).Backup? {
      assert SomeValue(us) by {
        var i :| 0 <= i < |vs| && vs[i].Carries?;
        assert vs[i] in us;
      }
    }
  }

  /** A response that splits the configuration: each entry in exactly one root-level update. */
  ghost predicate SplitOf(us: seq<Update>, config: Doc) {
    SomeValue(us) && Mergeable(us) && UnionOf(config, us)
  }

  /** However the device splits its configuration over updates, the backup is that configuration, and a
      rollback to it that is acknowledged restores the device to it, whatever was there before. */
  lemma BackupRestores(us: seq<Update>, config: Doc, left: Json, lost: seq<bool>)
    requires SplitOf(us, config)
    ensures Extract(us) == Backup(config)
    ensures var (restored, acked) := Deliver(left, Replace(Obj(Extract(us).config)), lost, MAX_ATTEMPTS);
            acked ==> restored == Obj(config)
  {
    ExtractsIff(us);
    UnionIsUnique(Extract(us).config, config, us, us);
    DeliverCollapses(left, Replace(Obj(config)), lost, MAX_ATTEMPTS);
  }
}
