/** The store that seeding writes to, and one pass of get-or-create over a list of entries.

    An object is identified by its position; objects are only ever added. The server's verdict on a
    creation, which may be an error, is a function of the object. */
module SeedStore {
  import opened Json

  datatype Kind =
    | Manufacturer | Location | Platform | DeviceType | AutonomousSystem | Namespace | Vrf | Device
    | Prefix | IpAddress | Interface | BgpSession
    | Service | Endpoint | Intent | Binding | RuleSet

  /** The relationships that seeding fills in. */
  datatype Role =
    | OfManufacturer | AtLocation | OnPlatform | OfDeviceType | OfAs | InNamespace | OfDevice | WithAddress
    | LocalAs | RemoteAs | LocalIp | RemoteIp | InVrf
    | OfService | FromEndpoint | ToEndpoint | OfIntent | OfBinding

  /** The kind of object that the schema wants at the other end. */
  function Wants(role: Role): Kind {
    match role
    case OfManufacturer => Manufacturer
    case AtLocation => Location
    case OnPlatform => Platform
    case OfDeviceType => DeviceType
    case OfAs | LocalAs | RemoteAs => AutonomousSystem
    case InNamespace => Namespace
    case OfDevice => Device
    case WithAddress | LocalIp | RemoteIp => IpAddress
    case InVrf => Vrf
    case OfService => Service
    case FromEndpoint | ToEndpoint => Endpoint
    case OfIntent => Intent
    case OfBinding => Binding
  }

  /** What an object is looked up by: a text or number attribute, or its name on a device. */
  datatype Key = Text(text: string) | Number(number: int) | OnDevice(name: string, device: nat)

  type Attributes = map<string, string>

  datatype Record = Record(kind: Kind, key: Key, attributes: Attributes, refs: map<Role, nat>)

  type Store = seq<Record>

  type Ids = map<Key, nat>

  predicate Is(r: Record, kind: Kind, key: Key) {
    r.kind == kind && r.key == key
  }

  /** The first edge of the lookup query. */
  function Find(s: Store, kind: Kind, key: Key): (r: Option<nat>)
    ensures r.Some? ==> r.value < |s| && Is(s[r.value], kind, key)
                        && forall i | 0 <= i < r.value :: !Is(s[i], kind, key)
    ensures r.None? ==> forall i | 0 <= i < |s| :: !Is(s[i], kind, key)
  {
    if s == [] then None
    else
      var n := |s| - 1;
      var earlier := Find(s[..n], kind, key);
      if earlier.Some? then earlier else if Is(s[n], kind, key) then Some(n) else None
  }

  /** What one entry asks for: nothing, a key that is not there, or an object. A soft refusal is only
      logged. */
  datatype Action = Skip | Missing | Upsert(name: Key, record: Record, soft: bool)

  datatype Failure = KeyError | CreateFailed | GraphQlError

  /** The server's answer to a creation: done, not done, or an error, which raises in the client. */
  datatype Verdict = Accept | Refuse | Raise

  /** How an object that is not created ends the pass: an error always, a refusal unless it is soft. */
  function Stops(verdict: Verdict, soft: bool): Option<Failure> {
    match verdict
    case Accept => None
    case Refuse => if soft then None else Some(CreateFailed)
    case Raise => Some(GraphQlError)
  }

  /** The store and the ids so far, or the exception that ended the pass. */
  datatype Phase = Phase(store: Store, ids: Ids, failure: Option<Failure>)

  function Apply(p: Phase, a: Action, judge: Record -> Verdict): Phase {
    if p.failure.Some? then p
    else match a
      case Skip => p
      case Missing => p.(ids := map[], failure := Some(KeyError))
      case Upsert(name, r, soft) =>
        match Find(p.store, r.kind, r.key)
        case Some(i) => p.(ids := p.ids[name := i])
        case None =>
          if judge(r) == Accept then Phase(p.store + [r], p.ids[name := |p.store|], None)
          else if Stops(judge(r), soft).None? then p
          else p.(ids := map[], failure := Stops(judge(r), soft))
  }

  function Fold(s: Store, actions: seq<Action>, judge: Record -> Verdict): Phase {
    if actions == [] then Phase(s, map[], None)
    else Apply(Fold(s, actions[..|actions| - 1], judge), actions[|actions| - 1], judge)
  }

  // --- lookups in a growing store -----------------------------------------------------------

  lemma FindGrows(s: Store, t: Store, kind: Kind, key: Key)
    requires s <= t
    ensures Find(s, kind, key).Some? ==> Find(t, kind, key) == Find(s, kind, key)
    ensures (forall i | |s| <= i < |t| :: t[i].kind != kind) ==> Find(t, kind, key) == Find(s, kind, key)
  {
    var a, b := Find(s, kind, key), Find(t, kind, key);
    assert forall i | 0 <= i < |s| :: s[i] == t[i];
    if a.Some? {
      assert Is(t[a.value], kind, key);
      assert b.Some?;
      assert forall i | 0 <= i < a.value :: !Is(t[i], kind, key);
    }
    if b.Some? && b.value < |s| { assert Is(s[b.value], kind, key); }
  }

  lemma {:induction false} FoldGrows(s: Store, actions: seq<Action>, judge: Record -> Verdict)
    ensures s <= Fold(s, actions, judge).store
    decreases |actions|
  {
    if actions != [] { FoldGrows(s, actions[..|actions| - 1], judge); }
  }

  lemma {:induction false} FoldAddsKind(s: Store, actions: seq<Action>, judge: Record -> Verdict, kind: Kind)
    requires OfKind(actions, kind)
    ensures var t := Fold(s, actions, judge).store; forall i | |s| <= i < |t| :: t[i].kind == kind
    decreases |actions|
  {
    if actions != [] {
      FoldAddsKind(s, actions[..|actions| - 1], judge, kind);
      FoldGrows(s, actions[..|actions| - 1], judge);
    }
  }

  predicate OfKind(actions: seq<Action>, kind: Kind) {
    forall i | 0 <= i < |actions| && actions[i].Upsert? :: actions[i].record.kind == kind
  }

  /** Entries for the same object are known under the same name. */
  ghost predicate NamedAlike(actions: seq<Action>) {
    forall i, j | 0 <= i < |actions| && 0 <= j < |actions| && actions[i].Upsert? && actions[j].Upsert? ::
      actions[i].record.key == actions[j].record.key ==> actions[i].name == actions[j].name
  }

  // --- a second pass ------------------------------------------------------------------------

  /** The action has nothing left to do on `s`. */
  predicate Settled(a: Action, s: Store, judge: Record -> Verdict) {
    match a
    case Skip => true
    case Missing => false
    case Upsert(_, r, soft) => Find(s, r.kind, r.key).Some? || (soft && judge(r) == Refuse)
  }

  predicate AllSettled(actions: seq<Action>, s: Store, judge: Record -> Verdict) {
    forall i | 0 <= i < |actions| :: Settled(actions[i], s, judge)
  }

  /** The ids of a pass that only looks up. */
  function IdsOf(s: Store, actions: seq<Action>): Ids {
    if actions == [] then map[]
    else
      var ids, a := IdsOf(s, actions[..|actions| - 1]), actions[|actions| - 1];
      if a.Upsert? && Find(s, a.record.kind, a.record.key).Some?
      then ids[a.name := Find(s, a.record.kind, a.record.key).value] else ids
  }

  lemma SettledStays(a: Action, s: Store, t: Store, judge: Record -> Verdict)
    requires Settled(a, s, judge) && s <= t
    ensures Settled(a, t, judge)
  {
    if a.Upsert? { FindGrows(s, t, a.record.kind, a.record.key); }
  }

  lemma {:induction false} FoldSettles(s: Store, actions: seq<Action>, judge: Record -> Verdict)
    requires Fold(s, actions, judge).failure.None?
    ensures AllSettled(actions, Fold(s, actions, judge).store, judge)
    decreases |actions|
  {
    if actions != [] {
      var n := |actions| - 1;
      FoldSettles(s, actions[..n], judge);
      var before, after := Fold(s, actions[..n], judge).store, Fold(s, actions, judge).store;
      LastSettles(Fold(s, actions[..n], judge), actions[n], judge);
      forall i | 0 <= i < |actions| ensures Settled(actions[i], after, judge) {
        if i < n { SettledStays(actions[..n][i], before, after, judge); }
      }
    }
  }

  lemma LastSettles(p: Phase, a: Action, judge: Record -> Verdict)
    requires p.failure.None? && Apply(p, a, judge).failure.None?
    ensures Settled(a, Apply(p, a, judge).store, judge) && p.store <= Apply(p, a, judge).store
  {
    if a.Upsert? {
      var after := Apply(p, a, judge).store;
      FindGrows(p.store, after, a.record.kind, a.record.key);
      if Find(p.store, a.record.kind, a.record.key).None? && judge(a.record) == Accept {
        assert Is(after[|p.store|], a.record.kind, a.record.key);
      }
    }
  }

  lemma {:induction false} SettledFolds(s: Store, actions: seq<Action>, judge: Record -> Verdict)
    requires AllSettled(actions, s, judge)
    ensures Fold(s, actions, judge) == Phase(s, IdsOf(s, actions), None)
    decreases |actions|
  {
    if actions != [] {
      var n := |actions| - 1;
      assert AllSettled(actions[..n], s, judge);
      SettledFolds(s, actions[..n], judge);
      assert Settled(actions[n], s, judge);
    }
  }

  lemma OverwriteLast(ids: Ids, a: Key, i: nat, b: Key, j: nat)
    ensures ids[a := i][b := j] == ids[b := j][a := if a == b then j else i]
  {
  }

  /** Adding an object changes the looked-up ids only under the names that its own entries have. */
  lemma {:induction false} IdsAfterAdding(s: Store, r: Record, actions: seq<Action>, name: Key, id: nat)
    requires Find(s, r.kind, r.key).None?
    requires forall i | 0 <= i < |actions| && actions[i].Upsert? ::
               Is(actions[i].record, r.kind, r.key) ==> actions[i].name == name
    ensures IdsOf(s + [r], actions)[name := id] == IdsOf(s, actions)[name := id]
    decreases |actions|
  {
    if actions != [] {
      var n := |actions| - 1;
      IdsAfterAdding(s, r, actions[..n], name, id);
      var a := actions[n];
      if a.Upsert? && !Is(a.record, r.kind, r.key) {
        AddingOther(s, r, a.record.kind, a.record.key);
        var x, y := IdsOf(s + [r], actions[..n]), IdsOf(s, actions[..n]);
        var found := Find(s, a.record.kind, a.record.key);
        if found.Some? {
          OverwriteLast(x, a.name, found.value, name, id);
          OverwriteLast(y, a.name, found.value, name, id);
        }
      } else if a.Upsert? {
        assert a.name == name;
      }
    }
  }

  lemma AddingOther(s: Store, r: Record, kind: Kind, key: Key)
    requires !Is(r, kind, key)
    ensures Find(s + [r], kind, key) == Find(s, kind, key)
  {
    assert (s + [r])[..|s|] == s;
  }

  /** The ids that a pass returns are the ids that looking up would give at its end. */
  lemma {:induction false} FoldIds(s: Store, actions: seq<Action>, judge: Record -> Verdict, kind: Kind)
    requires OfKind(actions, kind) && NamedAlike(actions) && Fold(s, actions, judge).failure.None?
    ensures Fold(s, actions, judge).ids == IdsOf(Fold(s, actions, judge).store, actions)
    decreases |actions|
  {
    if actions != [] {
      var n := |actions| - 1;
      var front, a := actions[..n], actions[n];
      assert NamedAlike(front) by {
        assert forall i | 0 <= i < n :: front[i] == actions[i];
      }
      FoldIds(s, front, judge, kind);
      var p := Fold(s, front, judge);
      if a.Upsert? && Find(p.store, a.record.kind, a.record.key).None? && judge(a.record) == Accept {
        forall i | 0 <= i < n && front[i].Upsert? && Is(front[i].record, a.record.kind, a.record.key)
          ensures front[i].name == a.name
        {
          assert actions[i].record.key == actions[n].record.key;
        }
        IdsAfterAdding(p.store, a.record, front, a.name, |p.store|);
        AddedIsFound(p.store, a.record);
      }
    }
  }

  lemma AddedIsFound(s: Store, r: Record)
    requires Find(s, r.kind, r.key).None?
    ensures Find(s + [r], r.kind, r.key) == Some(|s|)
  {
    assert (s + [r])[..|s|] == s;
  }

  lemma {:induction false} IdsInGrown(s: Store, t: Store, actions: seq<Action>, kind: Kind)
    requires OfKind(actions, kind) && s <= t && forall i | |s| <= i < |t| :: t[i].kind != kind
    ensures IdsOf(t, actions) == IdsOf(s, actions)
    decreases |actions|
  {
    if actions != [] {
      var n := |actions| - 1;
      IdsInGrown(s, t, actions[..n], kind);
      if actions[n].Upsert? { FindGrows(s, t, kind, actions[n].record.key); }
    }
  }

  /** A second pass over the same entries, on the store that the first one left and that has since
      grown only by objects of other kinds: it adds nothing, returns the same ids, and fails where the
      first one failed. */
  lemma {:induction false} FoldAgain(
      s: Store, actions: seq<Action>, judge: Record -> Verdict, kind: Kind, t: Store)
    requires OfKind(actions, kind) && NamedAlike(actions)
    requires var p := Fold(s, actions, judge).store; p <= t && forall i | |p| <= i < |t| :: t[i].kind != kind
    ensures Fold(t, actions, judge) == Fold(s, actions, judge).(store := t)
    decreases |actions|
  {
    var p := Fold(s, actions, judge);
    if p.failure.None? {
      FoldSettles(s, actions, judge);
      FoldIds(s, actions, judge, kind);
      forall i | 0 <= i < |actions| ensures Settled(actions[i], t, judge) {
        SettledStays(actions[i], p.store, t, judge);
      }
      SettledFolds(t, actions, judge);
      IdsInGrown(p.store, t, actions, kind);
    } else if actions != [] {
      var n := |actions| - 1;
      var front := actions[..n];
      assert forall i | 0 <= i < n :: front[i] == actions[i];
      FoldAgain(s, front, judge, kind, t);
      if actions[n].Upsert? { FindGrows(p.store, t, kind, actions[n].record.key); }
    }
  }

  // --- references ---------------------------------------------------------------------------

  /** Every reference of the record denotes an object of `s` of the kind that its role wants. */
  predicate RefsDenote(r: Record, s: Store) {
    forall role | role in r.refs :: r.refs[role] < |s| && s[r.refs[role]].kind == Wants(role)
  }

  /** From position `n` on, objects refer only to objects that were there before them. */
  predicate ClosedFrom(s: Store, n: nat) {
    forall i | n <= i < |s| :: RefsDenote(s[i], s[..i])
  }

  lemma {:induction false} FoldCloses(s: Store, actions: seq<Action>, judge: Record -> Verdict, n: nat)
    requires n <= |s| && ClosedFrom(s, n)
    requires forall i | 0 <= i < |actions| && actions[i].Upsert? :: RefsDenote(actions[i].record, s)
    ensures ClosedFrom(Fold(s, actions, judge).store, n)
    decreases |actions|
  {
    if actions != [] {
      var m := |actions| - 1;
      var front := actions[..m];
      assert forall i | 0 <= i < m :: front[i] == actions[i];
      FoldCloses(s, front, judge, n);
      FoldGrows(s, front, judge);
      var p, a := Fold(s, front, judge), actions[m];
      if a.Upsert? {
        var grown := p.store + [a.record];
        forall i | n <= i < |grown| ensures RefsDenote(grown[i], grown[..i]) {
          if i < |p.store| {
            assert grown[..i] == p.store[..i];
          } else {
            assert grown[..i] == p.store;
            forall role | role in a.record.refs
              ensures a.record.refs[role] < |p.store| && p.store[a.record.refs[role]].kind == Wants(role)
            {
              assert p.store[a.record.refs[role]] == s[a.record.refs[role]];
            }
          }
        }
      }
    }
  }

  /** The ids of a pass denote objects of its kind, with the key that they are listed under where names
      are keys. */
  predicate Denotes(ids: Ids, s: Store, kind: Kind) {
    forall k | k in ids :: ids[k] < |s| && s[ids[k]].kind == kind && (kind != Interface ==> s[ids[k]].key == k)
  }

  lemma {:induction false} FoldDenotes(s: Store, actions: seq<Action>, judge: Record -> Verdict, kind: Kind)
    requires OfKind(actions, kind)
    requires kind != Interface ==>
               forall i | 0 <= i < |actions| && actions[i].Upsert? :: actions[i].name == actions[i].record.key
    ensures Denotes(Fold(s, actions, judge).ids, Fold(s, actions, judge).store, kind)
    decreases |actions|
  {
    if actions != [] {
      var m := |actions| - 1;
      var front := actions[..m];
      assert forall i | 0 <= i < m :: front[i] == actions[i];
      FoldDenotes(s, front, judge, kind);
    }
  }

  lemma DenotesGrows(ids: Ids, s: Store, t: Store, kind: Kind)
    requires Denotes(ids, s, kind) && s <= t
    ensures Denotes(ids, t, kind)
  {
  }

  lemma NamesAfter(p: Phase, a: Action, judge: Record -> Verdict, name: Key)
    requires Apply(p, a, judge).failure.None? && (a.Upsert? ==> !a.soft)
    ensures p.failure.None?
    ensures name in Apply(p, a, judge).ids <==> name in p.ids || (a.Upsert? && a.name == name)
  {
    hide Find;
  }

  /** When no creation is soft, a pass that returns has an id for a name exactly when some entry asked
      for an object under that name. */
  lemma {:induction false} FoldNames(s: Store, actions: seq<Action>, judge: Record -> Verdict, name: Key)
    requires Fold(s, actions, judge).failure.None?
    requires forall i | 0 <= i < |actions| && actions[i].Upsert? :: !actions[i].soft
    ensures name in Fold(s, actions, judge).ids <==>
            exists i | 0 <= i < |actions| :: actions[i].Upsert? && actions[i].name == name
    decreases |actions|
  {
    if actions != [] {
      var m := |actions| - 1;
      var front := actions[..m];
      NamesAfter(Fold(s, front, judge), actions[m], judge, name);
      hide Apply;
      assert forall i | 0 <= i < m :: front[i] == actions[i];
      FoldNames(s, front, judge, name);
      if i :| 0 <= i < |actions| && actions[i].Upsert? && actions[i].name == name && i < m {
        assert front[i].Upsert? && front[i].name == name;
      }
    }
  }
}
