/** Seeding as a whole: what a run creates is what the entries of its seed data describe, and a second run
    changes nothing. */
module SeedReferences {
  import opened Json
  import opened SeedStore
  import opened Seeding
  import opened SeedEntries

  // --- which keys a section makes known -----------------------------------------------------

  /** Objects of this kind are referred to by others. */
  predicate Hard(kind: Kind) {
    kind !in {Prefix, Interface, BgpSession, RuleSet}
  }

  lemma PlanNames(kind: Kind, seed: SeedData, key: Key)
    requires Hard(kind) && kind !in {Binding, IpAddress}
    ensures (exists k | 0 <= k < |Plans(kind, seed)| :: Plans(kind, seed)[k].name == key) <==> Known(seed, kind, key)
  {
    hide IsDevice;
    var plans := Plans(kind, seed);
    match kind
    case Manufacturer => assert plans[0].name == Text(seed.manufacturer.name);
    case Location => assert plans[0].name == Text(seed.location.name);
    case Platform => assert plans[0].name == Text(seed.platform.name);
    case Namespace => assert plans[0].name == Text("default");
    case DeviceType => assert forall k | 0 <= k < |plans| :: plans[k].name == Text(seed.deviceTypes[k].name);
    case AutonomousSystem =>
      assert forall k | 0 <= k < |plans| :: plans[k].name == Number(seed.autonomousSystems[k].asn);
    case Vrf => assert forall k | 0 <= k < |plans| :: plans[k].name == Text(seed.vrfs[k].name);
    case Device => DevicePlanNames(seed, key);
    case Service => assert forall k | 0 <= k < |plans| :: plans[k] == ServicePlan(seed.services[k]);
    case Endpoint => assert forall k | 0 <= k < |plans| :: plans[k] == EndpointPlan(seed.endpoints[k]);
    case Intent => assert forall k | 0 <= k < |plans| :: plans[k] == IntentPlan(seed.intents[k]);
  }

  lemma DevicePlanNames(seed: SeedData, key: Key)
    ensures (exists k | 0 <= k < |Plans(Device, seed)| :: Plans(Device, seed)[k].name == key)
            <==> Known(seed, Device, key)
  {
    var plans := Plans(Device, seed);
    assert forall k | 0 <= k < |plans| :: plans[k].name == Text(seed.devices[k].name);
    if Known(seed, Device, key) {
      var d :| d in seed.devices && d.name == key.text;
      var k :| 0 <= k < |seed.devices| && seed.devices[k] == d;
      assert plans[k].name == key;
    }
  }

  lemma AddressPlanNames(seed: SeedData, key: Key)
    ensures (exists k | 0 <= k < |Plans(IpAddress, seed)| :: Plans(IpAddress, seed)[k].name == key)
            <==> Known(seed, IpAddress, key)
  {
    var plans := Plans(IpAddress, seed);
    if k :| 0 <= k < |plans| && plans[k].name == key {
      AddressPlanOf(seed.interfaces, k);
    }
    if Known(seed, IpAddress, key) {
      var i :| i in seed.interfaces && HasAddress(i) && key == Text(i.ipAddress.value);
      var k := PlanOfAddress(seed.interfaces, i);
      assert plans[k].name == key;
    }
    hide AddressPlans;
  }

  /** Only interfaces, bindings and rules are skipped, and only interfaces and sessions are soft. */
  lemma PlanIsFirm(kind: Kind, seed: SeedData, k: nat)
    requires Hard(kind) && k < |Plans(kind, seed)|
    ensures var plan := Plans(kind, seed)[k];
            && !plan.soft
            && (kind != Binding ==> forall i | 0 <= i < |plan.wants| :: plan.wants[i].policy != OrSkip)
  {
    match kind
    case IpAddress => AddressPlanOf(seed.interfaces, k);
    case Device => assert Plans(kind, seed)[k] == DevicePlan(seed, seed.devices[k]);
    case Service => assert Plans(kind, seed)[k] == ServicePlan(seed.services[k]);
    case Endpoint => assert Plans(kind, seed)[k] == EndpointPlan(seed.endpoints[k]);
    case Intent => assert Plans(kind, seed)[k] == IntentPlan(seed.intents[k]);
    case Binding => assert Plans(kind, seed)[k] == BindingPlan(seed.bindings[k]);
    case _ =>
  }

  /** The ids of a section that returned are those of the known names. */
  lemma SectionNames(s: Store, seed: SeedData, judge: Record -> Verdict, kind: Kind, env: Env, key: Key)
    requires Hard(kind) && kind != Binding
    requires Fold(s, Actions(kind, seed, env), judge).failure.None?
    ensures key in Fold(s, Actions(kind, seed, env), judge).ids <==> Known(seed, kind, key)
  {
    hide Plans;
    hide Fold;
    hide Known;
    hide Resolve;
    var plans, actions := Plans(kind, seed), Actions(kind, seed, env);
    FoldSettles(s, actions, judge);
    var after := Fold(s, actions, judge).store;
    forall i | 0 <= i < |actions|
      ensures actions[i].Upsert? && actions[i].name == plans[i].name && !actions[i].soft
    {
      PlanIsFirm(kind, seed, i);
      NeverSkips(plans[i].wants, env);
      assert Settled(actions[i], after, judge);
    }
    FoldNames(s, actions, judge, key);
    if kind == IpAddress { AddressPlanNames(seed, key); } else { PlanNames(kind, seed, key); }
    assert forall i | 0 <= i < |actions| :: (actions[i].Upsert? && actions[i].name == key) <==> plans[i].name == key;
    hide Hard;
  }

  lemma BindingsKnown(s: Store, seed: SeedData, judge: Record -> Verdict, env: Env, key: Key)
    requires Device in env && (forall name :: Text(name) in env[Device] <==> IsDevice(seed, name))
    requires Fold(s, Actions(Binding, seed, env), judge).failure.None?
    ensures key in Fold(s, Actions(Binding, seed, env), judge).ids <==> Known(seed, Binding, key)
  {
    hide Plans;
    hide Fold;
    hide Resolve;
    hide IsDevice;
    hide ActionFor;
    hide BindingPlan;
    var actions := Actions(Binding, seed, env);
    FoldSettles(s, actions, judge);
    var after := Fold(s, actions, judge).store;
    forall i | 0 <= i < |seed.bindings|
      ensures i < |actions|
      ensures actions[i].Upsert? && actions[i].name == key
              <==> key == Text(seed.bindings[i].name) && IsDevice(seed, seed.bindings[i].device)
      ensures actions[i].Upsert? ==> !actions[i].soft
    {
      BindingActionAt(seed, env, i);
      BindingAction(seed.bindings[i], env);
      assert Settled(actions[i], after, judge);
    }
    BindingActionsAre(seed, env);
    FoldNames(s, actions, judge, key);
    if b :| b in seed.bindings && key == Text(b.name) && IsDevice(seed, b.device) {
      var i :| 0 <= i < |seed.bindings| && seed.bindings[i] == b;
      assert actions[i].Upsert? && actions[i].name == key;
    }
  }

  lemma BindingActionAt(seed: SeedData, env: Env, i: nat)
    requires i < |seed.bindings|
    ensures i < |Actions(Binding, seed, env)|
    ensures Actions(Binding, seed, env)[i] == ActionFor(Binding, BindingPlan(seed.bindings[i]), env)
  {
    hide ActionFor;
    hide BindingPlan;
  }

  lemma BindingActionsAre(seed: SeedData, env: Env)
    ensures |Actions(Binding, seed, env)| == |seed.bindings|
  {
    hide ActionFor;
  }

  // --- the whole run ------------------------------------------------------------------------

  lemma OrderByRank(kind: Kind)
    ensures Rank(kind) < |Order()| && Order()[Rank(kind)] == kind
    ensures Distinct(Order())
  {
    OrderIsDistinct();
    hide Distinct;
  }

  lemma RankByOrder(i: nat)
    requires i < |Order()|
    ensures Rank(Order()[i]) == i
  {
  }

  lemma {:induction false} StoreGrows(o: Outcome, seed: SeedData, judge: Record -> Verdict, kinds: seq<Kind>, i: nat)
    requires i <= |kinds|
    ensures RunFrom(o, seed, judge, kinds[..i]).store <= RunFrom(o, seed, judge, kinds).store
    ensures RunFrom(o, seed, judge, kinds).failure.None? ==> RunFrom(o, seed, judge, kinds[..i]).failure.None?
    decreases |kinds|
  {
    hide Actions;
    hide Fold;
    if i == |kinds| {
      assert kinds[..i] == kinds;
    } else {
      var n := |kinds| - 1;
      assert kinds[..n][..i] == kinds[..i];
      StoreGrows(o, seed, judge, kinds[..n], i);
      var p := RunFrom(o, seed, judge, kinds[..n]);
      FoldGrows(p.store, Actions(kinds[n], seed, p.env), judge);
    }
  }

  lemma {:induction false} IdsFound(s: Store, actions: seq<SeedStore.Action>, kind: Kind, key: Key)
    requires OfKind(actions, kind)
    requires forall i | 0 <= i < |actions| && actions[i].Upsert? :: actions[i].name == actions[i].record.key
    ensures key in IdsOf(s, actions) ==> Find(s, kind, key) == Some(IdsOf(s, actions)[key])
    decreases |actions|
  {
    hide Find;
    if actions != [] {
      var n := |actions| - 1;
      assert forall i | 0 <= i < n :: actions[..n][i] == actions[i];
      IdsFound(s, actions[..n], kind, key);
    }
  }

  /** In a run that returned, section `Rank(kind)` saw the ids of the earlier sections, and its own pass
      is what the run kept of it. */
  lemma SectionOf(s: Store, seed: SeedData, judge: Record -> Verdict, kind: Kind) returns (p: Outcome)
    requires Run(s, seed, judge).failure.None?
    ensures p == RunFrom(Outcome(s, map[], None), seed, judge, Order()[..Rank(kind)])
    ensures var r, f := Run(s, seed, judge), Fold(p.store, Actions(kind, seed, p.env), judge);
            && f.failure.None? && kind in r.env && r.env[kind] == f.ids
            && f.store <= r.store && EnvDenotes(p.env, p.store)
            && forall k: Kind | Rank(k) < Rank(kind) :: k in p.env && k in r.env && p.env[k] == r.env[k]
  {
    hide Order;
    hide Rank;
    hide RunFrom;
    hide Actions;
    hide Fold;
    hide Continue;
    OrderByRank(kind);
    var start, i := Outcome(s, map[], None), Rank(kind);
    p := RunFrom(start, seed, judge, Order()[..i]);
    PhaseAt(start, seed, judge, Order(), i);
    RunCloses(start, seed, judge, Order()[..i], |s|);
    forall k: Kind | Rank(k) < i ensures k in p.env && k in Run(s, seed, judge).env {
      OrderByRank(k);
    }
    forall k: Kind | Rank(k) < i ensures p.env[k] == Run(s, seed, judge).env[k] {
      OrderByRank(k);
    }
    StoreGrows(start, seed, judge, Order(), i);
    NextStore(start, seed, judge, i);
    StoreGrows(start, seed, judge, Order(), i + 1);
  }

  lemma NextStore(o: Outcome, seed: SeedData, judge: Record -> Verdict, i: nat)
    requires i < |Order()| && RunFrom(o, seed, judge, Order()[..i]).failure.None?
    ensures var p := RunFrom(o, seed, judge, Order()[..i]);
            RunFrom(o, seed, judge, Order()[..i + 1]).store
            == Fold(p.store, Actions(Order()[i], seed, p.env), judge).store
  {
    hide Order;
    hide Actions;
    hide Fold;
    assert Order()[..i + 1][..i] == Order()[..i];
  }

  /** After a run that returned, the ids of a section are the lookups of exactly the keys that the seed
      data makes known. */
  lemma ExactAt(s: Store, seed: SeedData, judge: Record -> Verdict, kind: Kind)
    requires Run(s, seed, judge).failure.None? && Hard(kind)
    ensures Exact(Run(s, seed, judge).env, seed, Run(s, seed, judge).store, kind)
    decreases Rank(kind)
  {
    hide Run;
    hide Fold;
    hide Actions;
    hide Known;
    hide NamedAlike;
    var r := Run(s, seed, judge);
    var p := SectionOf(s, seed, judge, kind);
    var actions := Actions(kind, seed, p.env);
    var f := Fold(p.store, actions, judge);
    ActionsDenote(kind, seed, p.env, p.store);
    ActionsNamedAlike(kind, seed, p.env, p.store);
    FoldIds(p.store, actions, judge, kind);
    if kind == Binding { DevicesAreExact(s, seed, judge, p.env); }
    hide RunFrom;
    forall key
      ensures key in f.ids <==> Known(seed, kind, key)
      ensures key in f.ids ==> Find(r.store, kind, key) == Some(f.ids[key])
    {
      if kind == Binding {
        BindingsKnown(p.store, seed, judge, p.env, key);
      } else {
        SectionNames(p.store, seed, judge, kind, p.env, key);
      }
      IdsFound(f.store, actions, kind, key);
      FindGrows(f.store, r.store, kind, key);
    }
    hide Hard;
  }

  lemma DevicesAreExact(s: Store, seed: SeedData, judge: Record -> Verdict, env: Env)
    requires Run(s, seed, judge).failure.None?
    requires Device in env && Device in Run(s, seed, judge).env && env[Device] == Run(s, seed, judge).env[Device]
    ensures forall name :: Text(name) in env[Device] <==> IsDevice(seed, name)
    decreases Rank(Binding), 0
  {
    hide Run;
    ExactAt(s, seed, judge, Device);
    hide IsDevice;
    forall name ensures Text(name) in env[Device] <==> IsDevice(seed, name) {
      assert Text(name) in env[Device] <==> Known(seed, Device, Text(name));
    }
  }

  // --- what was created ---------------------------------------------------------------------

  lemma {:induction false} FoldCreates(s: Store, actions: seq<SeedStore.Action>, judge: Record -> Verdict, x: nat)
    returns (k: nat)
    requires |s| <= x < |Fold(s, actions, judge).store|
    ensures k < |actions| && actions[k].Upsert? && actions[k].record == Fold(s, actions, judge).store[x]
    decreases |actions|
  {
    hide Find;
    var n := |actions| - 1;
    FoldGrows(s, actions[..n], judge);
    if x < |Fold(s, actions[..n], judge).store| {
      k := FoldCreates(s, actions[..n], judge, x);
    } else {
      k := n;
    }
  }

  /** Every object added was asked for by an entry of the section of its kind. */
  lemma {:induction false} RunCreates(o: Outcome, seed: SeedData, judge: Record -> Verdict, kinds: seq<Kind>, x: nat)
    returns (i: nat, k: nat)
    requires |o.store| <= x < |RunFrom(o, seed, judge, kinds).store|
    ensures i < |kinds|
    ensures var p, r := RunFrom(o, seed, judge, kinds[..i]), RunFrom(o, seed, judge, kinds).store[x];
            var actions := Actions(kinds[i], seed, p.env);
            k < |actions| && actions[k].Upsert? && actions[k].record == r
    decreases |kinds|
  {
    hide Actions;
    hide Fold;
    var n := |kinds| - 1;
    var p := RunFrom(o, seed, judge, kinds[..n]);
    FoldGrows(p.store, Actions(kinds[n], seed, p.env), judge);
    if x < |p.store| {
      i, k := RunCreates(o, seed, judge, kinds[..n], x);
      assert kinds[..n][..i] == kinds[..i];
    } else {
      i := n;
      k := FoldCreates(p.store, Actions(kinds[n], seed, p.env), judge, x);
    }
  }

  /** What an entry refers to was known exactly when its section began. */
  lemma EntryIsExact(s: Store, seed: SeedData, judge: Record -> Verdict, kind: Kind, k: nat, env: Env)
    requires Run(s, seed, judge).failure.None? && k < |Plans(kind, seed)|
    requires forall e: Kind | Rank(e) < Rank(kind) :: e in env && e in Run(s, seed, judge).env
                                                      && env[e] == Run(s, seed, judge).env[e]
    ensures AllExact(Plans(kind, seed)[k].wants, env, seed, Run(s, seed, judge).store)
  {
    hide Run;
    hide Plans;
    hide Known;
    hide Find;
    hide Rank;
    PlanIsWellOrdered(kind, seed, k);
    var wants := Plans(kind, seed)[k].wants;
    forall i | 0 <= i < |wants| ensures Exact(env, seed, Run(s, seed, judge).store, Wants(wants[i].role)) {
      ExactAt(s, seed, judge, Wants(wants[i].role));
    }
  }

  /** Every object that a run created, if it returned, is described by an entry of the seed data: it has the
      key and attributes of that entry, and it refers, in each of the roles that the entry names an object
      for, to the object of exactly the named key whenever the seed data makes that key known, and to nothing
      else. */
  lemma CreatedIsDescribed(s: Store, seed: SeedData, judge: Record -> Verdict, x: nat)
    requires Run(s, seed, judge).failure.None? && |s| <= x < |Run(s, seed, judge).store|
    ensures Described(Run(s, seed, judge).store[x], seed, Run(s, seed, judge).store)
  {
    hide Order;
    hide Plans;
    hide Described;
    hide Resolve;
    hide LinksOf;
    hide Rank;
    var r := Run(s, seed, judge);
    var i, k := RunCreates(Outcome(s, map[], None), seed, judge, Order(), x);
    RankByOrder(i);
    var kind := Order()[i];
    var p := SectionOf(s, seed, judge, kind);
    hide Run;
    hide RunFrom;
    hide Linked;
    var plan := Plans(kind, seed)[k];
    EntryIsExact(s, seed, judge, kind, k, p.env);
    PlanIsWellOrdered(kind, seed, k);
    ResolveLinks(plan.wants, p.env, seed, r.store);
    ResolveHas(plan.wants, p.env);
    MadeIsDescribed(r.store[x], k, seed, r.store);
  }

  /** And every object that an entry describes is there, under its key, unless it is an interface or a
      session that the server refused. */
  lemma DescribedIsThere(s: Store, seed: SeedData, judge: Record -> Verdict, rec: Record)
    requires Run(s, seed, judge).failure.None? && Described(rec, seed, Run(s, seed, judge).store)
    ensures || Find(Run(s, seed, judge).store, rec.kind, rec.key).Some?
            || (rec.kind in {Interface, BgpSession} && judge(rec) == Refuse)
  {
    hide Plans;
    hide Described;
    hide Resolve;
    hide LinksOf;
    hide Rank;
    hide Run;
    hide Fold;
    hide Linked;
    var r := Run(s, seed, judge);
    var k := DescribedIsMade(rec, seed, r.store);
    var plan := Plans(rec.kind, seed)[k];
    var p := SectionOf(s, seed, judge, rec.kind);
    var actions := Actions(rec.kind, seed, p.env);
    var f := Fold(p.store, actions, judge);
    EntryIsExact(s, seed, judge, rec.kind, k, p.env);
    FoldSettles(p.store, actions, judge);
    assert Settled(actions[k], f.store, judge);
    hide RunFrom;
    PlanIsWellOrdered(rec.kind, seed, k);
    EntryResolves(rec, plan, p.env, seed, r.store);
    ResolveLinks(plan.wants, p.env, seed, r.store);
    LinkedOnce(rec.refs, Resolve(plan.wants, p.env).refs, LinksOf(plan.wants), seed, r.store);
    SoftKinds(rec.kind, seed, k);
    FindGrows(f.store, r.store, rec.kind, rec.key);
  }

  lemma SoftKinds(kind: Kind, seed: SeedData, k: nat)
    requires k < |Plans(kind, seed)|
    ensures Plans(kind, seed)[k].soft ==> kind in {Interface, BgpSession}
  {
    if Hard(kind) {
      PlanIsFirm(kind, seed, k);
    } else if kind == RuleSet {
      assert Plans(kind, seed)[k] == RulePlan(seed.rules[k]);
    }
  }

  /** The entry of an object that it describes is not skipped. */
  lemma EntryResolves(rec: Record, plan: Plan, env: Env, seed: SeedData, store: Store)
    requires MadeOf(rec, plan, seed, store) && AllExact(plan.wants, env, seed, store) && DistinctRoles(plan.wants)
    ensures !Resolve(plan.wants, env).SkipEntry?
  {
    hide Known;
    hide Find;
    hide Resolve;
    hide KeyFor;
    var wants := plan.wants;
    forall i | 0 <= i < |wants| && wants[i].policy == OrSkip
      ensures IdOf(env, Wants(wants[i].role), wants[i].key).Some?
    {
      LinkKey(wants, i);
      assert Exact(env, seed, store, Wants(wants[i].role));
      assert wants[i].role in rec.refs;
    }
    ResolveTakes(wants, env);
  }

  lemma {:induction false} LinkKey(wants: seq<Want>, i: nat)
    requires DistinctRoles(wants) && i < |wants|
    ensures wants[i].role in LinksOf(wants) && LinksOf(wants)[wants[i].role] == wants[i].key
    decreases |wants|
  {
    var n := |wants| - 1;
    if i < n {
      assert forall j | 0 <= j < n :: wants[..n][j] == wants[j];
      LinkKey(wants[..n], i);
    }
  }

  /** Seeding twice: the second run creates nothing, and returns the same ids or fails at the same place.
      When it returns, every object that an entry describes is there, but for refused interfaces and
      sessions. */
  lemma SeedingIsIdempotent(s: Store, seed: SeedData, judge: Record -> Verdict)
    ensures var r := Run(s, seed, judge);
            && Run(r.store, seed, judge) == r
            && (r.failure.None? ==>
                  forall rec: Record | Described(rec, seed, r.store) ::
                    || Find(r.store, rec.kind, rec.key).Some?
                    || (rec.kind in {Interface, BgpSession} && judge(rec) == Refuse))
  {
    hide RunFrom;
    hide Described;
    hide Find;
    OrderIsDistinct();
    RunAgain(s, seed, judge, Order(), Run(s, seed, judge).store);
    hide Run;
    if Run(s, seed, judge).failure.None? {
      forall rec: Record | Described(rec, seed, Run(s, seed, judge).store)
        ensures || Find(Run(s, seed, judge).store, rec.kind, rec.key).Some?
                || (rec.kind in {Interface, BgpSession} && judge(rec) == Refuse)
      {
        DescribedIsThere(s, seed, judge, rec);
      }
    }
  }

  /** Seeding any store: every object that the run adds refers only to objects before it, of the right kinds;
      and if the run returned, to all those that its entry names and the seed data makes known. */
  lemma SeedingIsClosed(s: Store, seed: SeedData, judge: Record -> Verdict)
    ensures var r := Run(s, seed, judge);
            && s <= r.store && ClosedFrom(r.store, |s|)
            && (forall kind | kind in r.env :: Denotes(r.env[kind], r.store, kind))
            && (r.failure.None? ==> forall x | |s| <= x < |r.store| :: Described(r.store[x], seed, r.store))
  {
    hide RunFrom;
    hide Described;
    RunCloses(Outcome(s, map[], None), seed, judge, Order(), |s|);
    var r := Run(s, seed, judge);
    if r.failure.None? {
      forall x | |s| <= x < |r.store| ensures Described(r.store[x], seed, r.store) {
        CreatedIsDescribed(s, seed, judge, x);
      }
    }
  }
}
