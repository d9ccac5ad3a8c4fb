/** Seeding the source of truth: what each section of the seed data asks for, and the whole run in
    dependency order. */
module Seeding {
  import opened Json
  import opened SeedStore

  // --- seed data ----------------------------------------------------------------------------

  datatype Named = Named(name: string, attributes: Attributes)

  datatype AsSeed = AsSeed(asn: int, attributes: Attributes)

  datatype DeviceSeed = DeviceSeed(name: string, attributes: Attributes, deviceType: string, asn: int)

  datatype InterfaceSeed = InterfaceSeed(
    device: string, name: string, attributes: Attributes, ipAddress: Option<string>, ipAttributes: Attributes)

  datatype BgpSeed = BgpSeed(
    description: string, attributes: Attributes, localDevice: string,
    localAs: int, remoteAs: int, localIp: string, remoteIp: string)

  datatype EndpointSeed = EndpointSeed(name: string, attributes: Attributes, service: string)

  datatype IntentSeed = IntentSeed(name: string, attributes: Attributes, source: string, destination: string)

  datatype BindingSeed = BindingSeed(name: string, attributes: Attributes, intent: string, device: string)

  datatype RuleSeed = RuleSeed(name: string, attributes: Attributes, binding: string)

  datatype SeedData = SeedData(
    manufacturer: Named, location: Named, platform: Named, deviceTypes: seq<Named>,
    autonomousSystems: seq<AsSeed>, vrfs: seq<Named>, devices: seq<DeviceSeed>, prefixes: seq<Named>,
    interfaces: seq<InterfaceSeed>, bgpSessions: seq<BgpSeed>,
    services: seq<Named>, endpoints: seq<EndpointSeed>, intents: seq<IntentSeed>,
    bindings: seq<BindingSeed>, rules: seq<RuleSeed>)

  // --- plans --------------------------------------------------------------------------------

  /** A reference by name that an unknown name makes an error, leaves out, or skips the entry for. */
  datatype Policy = Must | May | OrSkip

  datatype Want = Want(role: Role, key: Key, policy: Policy)

  /** One entry: the name its id is listed under, its name on a device if it is an interface, and its
      references in the order in which they are resolved. */
  datatype Plan = Plan(name: Key, onDevice: string, attributes: Attributes, wants: seq<Want>, soft: bool)

  function Simple(name: string, attributes: Attributes, wants: seq<Want>): Plan {
    Plan(Text(name), "", attributes, wants, false)
  }

  function ManufacturerOf(seed: SeedData, role: Role): Want {
    Want(role, Text(seed.manufacturer.name), Must)
  }

  const DEFAULT_NAMESPACE := "default"
  const DEFAULT_VRF := "default"

  predicate HasAddress(i: InterfaceSeed) {
    i.ipAddress.Some? && i.ipAddress.value != ""
  }

  function DevicePlan(seed: SeedData, d: DeviceSeed): Plan {
    Simple(d.name, d.attributes,
           [Want(AtLocation, Text(seed.location.name), Must), Want(OnPlatform, Text(seed.platform.name), Must),
            Want(OfDeviceType, Text(d.deviceType), May), Want(OfAs, Number(d.asn), May)])
  }

  function InterfaceName(i: InterfaceSeed): string {
    i.device + ":" + i.name
  }

  /** An interface without an address asks for no object of the address kind. */
  function AddressPlans(interfaces: seq<InterfaceSeed>): seq<Plan> {
    if interfaces == [] then []
    else
      var i, namespace := interfaces[|interfaces| - 1], Want(InNamespace, Text(DEFAULT_NAMESPACE), Must);
      AddressPlans(interfaces[..|interfaces| - 1])
      + (if HasAddress(i) then [Simple(i.ipAddress.value, i.ipAttributes, [namespace])] else [])
  }

  function InterfacePlan(i: InterfaceSeed): Plan {
    Plan(Text(InterfaceName(i)), i.name, i.attributes,
         [Want(OfDevice, Text(i.device), OrSkip)]
         + (if HasAddress(i) then [Want(WithAddress, Text(i.ipAddress.value), May)] else []), true)
  }

  function BgpPlan(b: BgpSeed): Plan {
    Plan(Text(b.description), "", b.attributes,
         [Want(OfDevice, Text(b.localDevice), May), Want(LocalAs, Number(b.localAs), May),
          Want(RemoteAs, Number(b.remoteAs), May), Want(LocalIp, Text(b.localIp), May),
          Want(RemoteIp, Text(b.remoteIp), May), Want(InVrf, Text(DEFAULT_VRF), May)], true)
  }

  function ServicePlan(s: Named): Plan {
    Simple(s.name, s.attributes, [])
  }

  function EndpointPlan(e: EndpointSeed): Plan {
    Simple(e.name, e.attributes, [Want(OfService, Text(e.service), Must)])
  }

  function IntentPlan(i: IntentSeed): Plan {
    Simple(i.name, i.attributes,
           [Want(FromEndpoint, Text(i.source), Must), Want(ToEndpoint, Text(i.destination), Must)])
  }

  function BindingPlan(b: BindingSeed): Plan {
    Simple(b.name, b.attributes, [Want(OfDevice, Text(b.device), OrSkip), Want(OfIntent, Text(b.intent), Must)])
  }

  function RulePlan(r: RuleSeed): Plan {
    Simple(r.name, r.attributes, [Want(OfBinding, Text(r.binding), OrSkip)])
  }

  function Each<T>(entries: seq<T>, plan: T -> Plan): seq<Plan> {
    seq(|entries|, i requires 0 <= i < |entries| => plan(entries[i]))
  }

  function Plans(kind: Kind, seed: SeedData): seq<Plan> {
    match kind
    case Manufacturer => [Simple(seed.manufacturer.name, seed.manufacturer.attributes, [])]
    case Location => [Simple(seed.location.name, seed.location.attributes, [])]
    case Platform =>
      [Simple(seed.platform.name, seed.platform.attributes, [ManufacturerOf(seed, OfManufacturer)])]
    case DeviceType =>
      Each(seed.deviceTypes, (d: Named) => Simple(d.name, d.attributes,
        [ManufacturerOf(seed, OfManufacturer), Want(OnPlatform, Text(seed.platform.name), Must)]))
    case AutonomousSystem =>
      Each(seed.autonomousSystems, (a: AsSeed) =>
        Plan(Number(a.asn), "", a.attributes, [ManufacturerOf(seed, OfManufacturer)], false))
    case Namespace => [Simple(DEFAULT_NAMESPACE, map["description" := "Default IP namespace"], [])]
    case Vrf =>
      Each(seed.vrfs, (v: Named) => Simple(v.name, v.attributes, [Want(InNamespace, Text(DEFAULT_NAMESPACE), Must)]))
    case Device => Each(seed.devices, (d: DeviceSeed) => DevicePlan(seed, d))
    case Prefix =>
      Each(seed.prefixes, (p: Named) =>
        Simple(p.name, p.attributes, [Want(InNamespace, Text(DEFAULT_NAMESPACE), Must)]))
    case IpAddress => AddressPlans(seed.interfaces)
    case Interface => Each(seed.interfaces, InterfacePlan)
    case BgpSession => Each(seed.bgpSessions, BgpPlan)
    case Service => Each(seed.services, ServicePlan)
    case Endpoint => Each(seed.endpoints, EndpointPlan)
    case Intent => Each(seed.intents, IntentPlan)
    case Binding => Each(seed.bindings, BindingPlan)
    case RuleSet => Each(seed.rules, RulePlan)
  }

  // --- resolving references -----------------------------------------------------------------

  /** The id maps that the earlier sections returned. */
  type Env = map<Kind, Ids>

  function IdOf(env: Env, kind: Kind, key: Key): Option<nat> {
    if kind in env && key in env[kind] then Some(env[kind][key]) else None
  }

  datatype Resolution = Refs(refs: map<Role, nat>) | UnknownKey | SkipEntry

  function Resolve(wants: seq<Want>, env: Env): Resolution {
    if wants == [] then Refs(map[])
    else
      var earlier, w := Resolve(wants[..|wants| - 1], env), wants[|wants| - 1];
      if !earlier.Refs? then earlier
      else match (IdOf(env, Wants(w.role), w.key), w.policy)
        case (Some(id), _) => Refs(earlier.refs[w.role := id])
        case (None, Must) => UnknownKey
        case (None, May) => earlier
        case (None, OrSkip) => SkipEntry
  }

  lemma ResolveSnoc(wants: seq<Want>, w: Want, env: Env)
    ensures Resolve(wants + [w], env) ==
            match Resolve(wants, env)
            case Refs(refs) =>
              (match (IdOf(env, Wants(w.role), w.key), w.policy)
               case (Some(id), _) => Refs(refs[w.role := id])
               case (None, Must) => UnknownKey
               case (None, May) => Refs(refs)
               case (None, OrSkip) => SkipEntry)
            case other => other
  {
    assert (wants + [w])[..|wants|] == wants;
  }

  lemma ResolveOne(w: Want, env: Env)
    ensures Resolve([w], env) ==
            match (IdOf(env, Wants(w.role), w.key), w.policy)
            case (Some(id), _) => Refs(map[w.role := id])
            case (None, Must) => UnknownKey
            case (None, May) => Refs(map[])
            case (None, OrSkip) => SkipEntry
  {
    ResolveSnoc([], w, env);
    assert [] + [w] == [w];
  }

  function KeyFor(kind: Kind, plan: Plan, refs: map<Role, nat>): Key {
    if kind == Interface && OfDevice in refs then OnDevice(plan.onDevice, refs[OfDevice]) else plan.name
  }

  function ActionFor(kind: Kind, plan: Plan, env: Env): Action {
    match Resolve(plan.wants, env)
    case UnknownKey => Missing
    case SkipEntry => Skip
    case Refs(refs) => Upsert(plan.name, Record(kind, KeyFor(kind, plan, refs), plan.attributes, refs), plan.soft)
  }

  function ActionsFor(kind: Kind, plans: seq<Plan>, env: Env): seq<Action> {
    seq(|plans|, i requires 0 <= i < |plans| => ActionFor(kind, plans[i], env))
  }

  function Actions(kind: Kind, seed: SeedData, env: Env): seq<Action> {
    ActionsFor(kind, Plans(kind, seed), env)
  }

  // --- the run ------------------------------------------------------------------------------

  function Order(): seq<Kind> {
    [Manufacturer, Location, Platform, DeviceType, AutonomousSystem, Namespace, Vrf, Device, Prefix,
     IpAddress, Interface, BgpSession, Service, Endpoint, Intent, Binding, RuleSet]
  }

  /** The part of the order that business intent seeding covers. */
  function Business(): seq<Kind> {
    [Service, Endpoint, Intent, Binding, RuleSet]
  }

  datatype Outcome = Outcome(store: Store, env: Env, failure: Option<Failure>)

  function Continue(o: Outcome, seed: SeedData, judge: Record -> Verdict, kind: Kind): Outcome {
    if o.failure.Some? then o
    else
      var p := Fold(o.store, Actions(kind, seed, o.env), judge);
      Outcome(p.store, if p.failure.None? then o.env[kind := p.ids] else o.env, p.failure)
  }

  /** The sections `kinds` in turn, each with the ids of those before it. */
  function RunFrom(o: Outcome, seed: SeedData, judge: Record -> Verdict, kinds: seq<Kind>): Outcome {
    if kinds == [] then o
    else Continue(RunFrom(o, seed, judge, kinds[..|kinds| - 1]), seed, judge, kinds[|kinds| - 1])
  }

  function Run(s: Store, seed: SeedData, judge: Record -> Verdict): Outcome {
    RunFrom(Outcome(s, map[], None), seed, judge, Order())
  }

  predicate Distinct(kinds: seq<Kind>) {
    forall i, j | 0 <= i < j < |kinds| :: kinds[i] != kinds[j]
  }

  ghost predicate EnvDenotes(env: Env, s: Store) {
    forall kind | kind in env :: Denotes(env[kind], s, kind)
  }

  // --- what holds of the actions ------------------------------------------------------------

  lemma {:induction false} ResolvedDenote(wants: seq<Want>, env: Env, s: Store)
    requires EnvDenotes(env, s) && Resolve(wants, env).Refs?
    ensures var refs := Resolve(wants, env).refs;
            forall role | role in refs :: refs[role] < |s| && s[refs[role]].kind == Wants(role)
    decreases |wants|
  {
    if wants != [] {
      var n := |wants| - 1;
      ResolvedDenote(wants[..n], env, s);
      if Wants(wants[n].role) in env { assert Denotes(env[Wants(wants[n].role)], s, Wants(wants[n].role)); }
    }
  }

  lemma ActionsDenote(kind: Kind, seed: SeedData, env: Env, s: Store)
    requires EnvDenotes(env, s)
    ensures var actions := Actions(kind, seed, env);
            forall i | 0 <= i < |actions| && actions[i].Upsert? :: RefsDenote(actions[i].record, s)
    ensures OfKind(Actions(kind, seed, env), kind)
    ensures kind != Interface ==>
              var actions := Actions(kind, seed, env);
              forall i | 0 <= i < |actions| && actions[i].Upsert? :: actions[i].name == actions[i].record.key
  {
    hide Plans;
    hide Resolve;
    var plans := Plans(kind, seed);
    forall i | 0 <= i < |plans| && Resolve(plans[i].wants, env).Refs? {
      ResolvedDenote(plans[i].wants, env, s);
    }
  }

  lemma InterfaceActions(i: InterfaceSeed, env: Env)
    ensures var id := IdOf(env, Device, Text(i.device));
            var ip := if HasAddress(i) then IdOf(env, IpAddress, Text(i.ipAddress.value)) else None;
            ActionFor(Interface, InterfacePlan(i), env) ==
            if id.None? then Skip
            else
              var refs := map[OfDevice := id.value];
              Upsert(Text(InterfaceName(i)),
                     Record(Interface, OnDevice(i.name, id.value), i.attributes,
                            if ip.Some? then refs[WithAddress := ip.value] else refs),
                     true)
  {
    var device := Want(OfDevice, Text(i.device), OrSkip);
    ResolveOne(device, env);
    if HasAddress(i) {
      ResolveSnoc([device], Want(WithAddress, Text(i.ipAddress.value), May), env);
    } else {
      assert InterfacePlan(i).wants == [device];
    }
  }

  /** Two interface entries for one object name the same device, because ids of devices denote devices
      of that name. */
  lemma ActionsNamedAlike(kind: Kind, seed: SeedData, env: Env, s: Store)
    requires EnvDenotes(env, s)
    ensures NamedAlike(Actions(kind, seed, env))
  {
    ActionsDenote(kind, seed, env, s);
    if kind == Interface {
      var actions := Actions(kind, seed, env);
      forall i, j | 0 <= i < |actions| && 0 <= j < |actions| && actions[i].Upsert? && actions[j].Upsert?
                    && actions[i].record.key == actions[j].record.key
        ensures actions[i].name == actions[j].name
      {
        var a, b := seed.interfaces[i], seed.interfaces[j];
        InterfaceActions(a, env);
        InterfaceActions(b, env);
        assert Denotes(env[Device], s, Device);
        hide InterfacePlan;
        hide ActionFor;
        assert s[env[Device][Text(a.device)]].key == Text(a.device);
      }
    }
  }

  // --- idempotence and closure --------------------------------------------------------------

  /** Every run adds to the store only, only objects of its sections; the ids it returns denote objects
      of the right kind; and every object it created refers to objects that were there before it, of the
      kinds that the schema wants. */
  lemma {:induction false} RunCloses(o: Outcome, seed: SeedData, judge: Record -> Verdict, kinds: seq<Kind>, n: nat)
    requires n <= |o.store| && ClosedFrom(o.store, n) && EnvDenotes(o.env, o.store)
    ensures var r := RunFrom(o, seed, judge, kinds);
            && o.store <= r.store && ClosedFrom(r.store, n) && EnvDenotes(r.env, r.store)
            && forall i | |o.store| <= i < |r.store| :: r.store[i].kind in kinds
    decreases |kinds|
  {
    if kinds != [] {
      var last := |kinds| - 1;
      var kind := kinds[last];
      RunCloses(o, seed, judge, kinds[..last], n);
      var p := RunFrom(o, seed, judge, kinds[..last]);
      var actions := Actions(kind, seed, p.env);
      ActionsDenote(kind, seed, p.env, p.store);
      hide Actions;
      hide ClosedFrom;
      FoldCloses(p.store, actions, judge, n);
      FoldGrows(p.store, actions, judge);
      FoldAddsKind(p.store, actions, judge, kind);
      FoldDenotes(p.store, actions, judge, kind);
      hide Fold;
      forall k | k in p.env ensures Denotes(p.env[k], Fold(p.store, actions, judge).store, k) {
        DenotesGrows(p.env[k], p.store, Fold(p.store, actions, judge).store, k);
      }
      hide Denotes;
    }
  }

  /** A second run of the same sections on a store that holds what the first one left, and has since
      grown only by other sections, returns the same ids or the same failure and creates nothing. */
  lemma {:induction false} RunAgain(
      s: Store, seed: SeedData, judge: Record -> Verdict, kinds: seq<Kind>, t: Store)
    requires Distinct(kinds)
    requires var r := RunFrom(Outcome(s, map[], None), seed, judge, kinds);
             r.store <= t && forall i | |r.store| <= i < |t| :: t[i].kind !in kinds
    ensures RunFrom(Outcome(t, map[], None), seed, judge, kinds)
            == RunFrom(Outcome(s, map[], None), seed, judge, kinds).(store := t)
    decreases |kinds|
  {
    if kinds != [] {
      var last := |kinds| - 1;
      var front, kind := kinds[..last], kinds[last];
      var start := Outcome(s, map[], None);
      var p, r := RunFrom(start, seed, judge, front), RunFrom(start, seed, judge, kinds);
      RunCloses(start, seed, judge, front, |s|);
      var actions := Actions(kind, seed, p.env);
      ActionsDenote(kind, seed, p.env, p.store);
      ActionsNamedAlike(kind, seed, p.env, p.store);
      hide Actions;
      hide NamedAlike;
      hide ClosedFrom;
      hide EnvDenotes;
      FoldGrows(p.store, actions, judge);
      FoldAddsKind(p.store, actions, judge, kind);
      if p.failure.None? {
        FoldAgain(p.store, actions, judge, kind, t);
      }
      hide Fold;
      assert forall i | |p.store| <= i < |t| :: t[i].kind !in front;
      RunAgain(s, seed, judge, front, t);
    }
  }

  function Rank(kind: Kind): nat {
    match kind
    case Manufacturer => 0
    case Location => 1
    case Platform => 2
    case DeviceType => 3
    case AutonomousSystem => 4
    case Namespace => 5
    case Vrf => 6
    case Device => 7
    case Prefix => 8
    case IpAddress => 9
    case Interface => 10
    case BgpSession => 11
    case Service => 12
    case Endpoint => 13
    case Intent => 14
    case Binding => 15
    case RuleSet => 16
  }

  lemma OrderIsDistinct()
    ensures Distinct(Order()) && |Order()| == 17
    ensures Order()[7] == Device && Order()[15] == Binding && Order()[16] == RuleSet
  {
    forall i | 0 <= i < |Order()| ensures Rank(Order()[i]) == i {
    }
    hide Order;
    hide Rank;
  }

  lemma {:induction false} RunSplits(o: Outcome, seed: SeedData, judge: Record -> Verdict, a: seq<Kind>, b: seq<Kind>)
    ensures RunFrom(o, seed, judge, a + b) == RunFrom(RunFrom(o, seed, judge, a), seed, judge, b)
    decreases |b|
  {
    hide Continue;
    if b == [] {
      assert a + b == a;
    } else {
      var n := |b| - 1;
      assert (a + b)[..|a + b| - 1] == a + b[..n];
      RunSplits(o, seed, judge, a, b[..n]);
    }
  }

  /** The whole run ends with business intent seeding. */
  lemma RunEndsWithBusiness(s: Store, seed: SeedData, judge: Record -> Verdict)
    ensures Run(s, seed, judge) ==
            RunFrom(RunFrom(Outcome(s, map[], None), seed, judge, Order()[..12]), seed, judge, Business())
  {
    RunSplits(Outcome(s, map[], None), seed, judge, Order()[..12], Business());
    assert Order()[..12] + Business() == Order();
    hide RunFrom;
  }

  // --- the business intent chain ------------------------------------------------------------

  lemma ContinueReturns(o: Outcome, seed: SeedData, judge: Record -> Verdict, kind: Kind)
    requires Continue(o, seed, judge, kind).failure.None?
    ensures var f := Fold(o.store, Actions(kind, seed, o.env), judge);
            && o.failure.None? && f.failure.None?
            && Continue(o, seed, judge, kind) == Outcome(f.store, o.env[kind := f.ids], None)
  {
    hide Actions;
    hide Fold;
  }

  /** In a run that returned, the ids of a section are those of its own pass, and each section saw the
      ids of the earlier ones as the run returned them. */
  lemma {:induction false} PhaseAt(o: Outcome, seed: SeedData, judge: Record -> Verdict, kinds: seq<Kind>, i: nat)
    requires Distinct(kinds) && i < |kinds| && RunFrom(o, seed, judge, kinds).failure.None?
    ensures var r, p := RunFrom(o, seed, judge, kinds), RunFrom(o, seed, judge, kinds[..i]);
            var f := Fold(p.store, Actions(kinds[i], seed, p.env), judge);
            && f.failure.None? && kinds[i] in r.env && r.env[kinds[i]] == f.ids
            && forall j | 0 <= j < i :: kinds[j] in p.env && kinds[j] in r.env && p.env[kinds[j]] == r.env[kinds[j]]
    decreases |kinds|
  {
    hide Actions;
    hide Fold;
    hide Continue;
    var last := |kinds| - 1;
    var front := kinds[..last];
    ContinueReturns(RunFrom(o, seed, judge, front), seed, judge, kinds[last]);
    if i < last {
      PhaseAt(o, seed, judge, front, i);
      assert front[..i] == kinds[..i];
    } else {
      forall j | 0 <= j < i
        ensures kinds[j] in RunFrom(o, seed, judge, front).env
      {
        PhaseAt(o, seed, judge, front, j);
        assert front[j] == kinds[j];
      }
    }
  }

  lemma BindingAction(b: BindingSeed, env: Env)
    ensures var device, intent := IdOf(env, Device, Text(b.device)), IdOf(env, Intent, Text(b.intent));
            ActionFor(Binding, BindingPlan(b), env) ==
            if device.None? then Skip
            else if intent.None? then Missing
            else Upsert(Text(b.name),
                        Record(Binding, Text(b.name), b.attributes,
                               map[OfDevice := device.value, OfIntent := intent.value]),
                        false)
  {
    var device, intent := Want(OfDevice, Text(b.device), OrSkip), Want(OfIntent, Text(b.intent), Must);
    ResolveOne(device, env);
    ResolveSnoc([device], intent, env);
    assert BindingPlan(b).wants == [device] + [intent];
  }

  lemma RuleAction(r: RuleSeed, env: Env)
    ensures var binding := IdOf(env, Binding, Text(r.binding));
            ActionFor(RuleSet, RulePlan(r), env) ==
            if binding.None? then Skip
            else Upsert(
              Text(r.name), Record(RuleSet, Text(r.name), r.attributes, map[OfBinding := binding.value]), false)
  {
    ResolveOne(Want(OfBinding, Text(r.binding), OrSkip), env);
  }

  lemma BindingNames(s: Store, seed: SeedData, judge: Record -> Verdict, env: Env, name: string)
    requires Device in env
    requires Fold(s, Actions(Binding, seed, env), judge).failure.None?
    ensures Text(name) in Fold(s, Actions(Binding, seed, env), judge).ids <==>
            exists i | 0 <= i < |seed.bindings| ::
              seed.bindings[i].name == name && Text(seed.bindings[i].device) in env[Device]
  {
    var actions := Actions(Binding, seed, env);
    FoldSettles(s, actions, judge);
    var after := Fold(s, actions, judge).store;
    hide Fold;
    hide BindingPlan;
    hide ActionFor;
    forall i | 0 <= i < |seed.bindings|
      ensures actions[i].Upsert? && actions[i].name == Text(name)
              <==> seed.bindings[i].name == name && Text(seed.bindings[i].device) in env[Device]
      ensures actions[i].Upsert? ==> !actions[i].soft
    {
      BindingAction(seed.bindings[i], env);
      assert Settled(actions[i], after, judge);
    }
    FoldNames(s, actions, judge, Text(name));
  }

  lemma RuleNames(s: Store, seed: SeedData, judge: Record -> Verdict, env: Env, name: string)
    requires Binding in env
    requires Fold(s, Actions(RuleSet, seed, env), judge).failure.None?
    ensures Text(name) in Fold(s, Actions(RuleSet, seed, env), judge).ids <==>
            exists i | 0 <= i < |seed.rules| ::
              seed.rules[i].name == name && Text(seed.rules[i].binding) in env[Binding]
  {
    var actions := Actions(RuleSet, seed, env);
    hide Fold;
    hide RulePlan;
    hide ActionFor;
    forall i | 0 <= i < |actions| {
      RuleAction(seed.rules[i], env);
    }
    FoldNames(s, actions, judge, Text(name));
    assert forall i | 0 <= i < |seed.rules| ::
      actions[i].Upsert? && actions[i].name == Text(name)
      <==> seed.rules[i].name == name && Text(seed.rules[i].binding) in env[Binding];
  }

  lemma DeviceNames(s: Store, seed: SeedData, judge: Record -> Verdict, env: Env, name: string)
    requires Fold(s, Actions(Device, seed, env), judge).failure.None?
    ensures Text(name) in Fold(s, Actions(Device, seed, env), judge).ids <==>
            exists i | 0 <= i < |seed.devices| :: seed.devices[i].name == name
  {
    var actions := Actions(Device, seed, env);
    FoldSettles(s, actions, judge);
    var after := Fold(s, actions, judge).store;
    hide Fold;
    hide DevicePlan;
    hide ActionFor;
    forall i | 0 <= i < |seed.devices|
      ensures actions[i].Upsert? && actions[i].name == Text(seed.devices[i].name) && !actions[i].soft
    {
      DeviceAction(seed, seed.devices[i], env);
      assert Settled(actions[i], after, judge);
    }
    FoldNames(s, actions, judge, Text(name));
  }

  /** After a run that returned: a device is known exactly when the seed data lists it; a binding of a
      name has been seeded exactly when some entry of that name is for a known device; and a firewall
      rule exactly when some entry of that name is for a seeded binding. */
  lemma SeededIff(s: Store, seed: SeedData, judge: Record -> Verdict, name: string)
    requires Run(s, seed, judge).failure.None?
    ensures var env := Run(s, seed, judge).env;
            && Device in env && Binding in env && RuleSet in env
            && (Text(name) in env[Device] <==> exists i | 0 <= i < |seed.devices| :: seed.devices[i].name == name)
            && (Text(name) in env[Binding] <==>
                  exists i | 0 <= i < |seed.bindings| ::
                    seed.bindings[i].name == name && Text(seed.bindings[i].device) in env[Device])
            && (Text(name) in env[RuleSet] <==>
                  exists i | 0 <= i < |seed.rules| ::
                    seed.rules[i].name == name && Text(seed.rules[i].binding) in env[Binding])
  {
    OrderIsDistinct();
    hide Order;
    hide RunFrom;
    hide Actions;
    hide Fold;
    var start := Outcome(s, map[], None);
    PhaseAt(start, seed, judge, Order(), 7);
    PhaseAt(start, seed, judge, Order(), 15);
    PhaseAt(start, seed, judge, Order(), 16);
    var p, q, r := RunFrom(start, seed, judge, Order()[..7]), RunFrom(start, seed, judge, Order()[..15]),
                   RunFrom(start, seed, judge, Order()[..16]);
    DeviceNames(p.store, seed, judge, p.env, name);
    BindingNames(q.store, seed, judge, q.env, name);
    RuleNames(r.store, seed, judge, r.env, name);
  }

  function Optional(refs: map<Role, nat>, role: Role, env: Env, key: Key): map<Role, nat> {
    var id := IdOf(env, Wants(role), key);
    if id.Some? then refs[role := id.value] else refs
  }

  lemma ResolveMay(wants: seq<Want>, role: Role, key: Key, env: Env)
    requires Resolve(wants, env).Refs?
    ensures Resolve(wants + [Want(role, key, May)], env) == Refs(Optional(Resolve(wants, env).refs, role, env, key))
  {
    ResolveSnoc(wants, Want(role, key, May), env);
  }

  function SpeakerRefs(b: BgpSeed, env: Env): map<Role, nat> {
    var device := Optional(map[], OfDevice, env, Text(b.localDevice));
    Optional(Optional(device, LocalAs, env, Number(b.localAs)), RemoteAs, env, Number(b.remoteAs))
  }

  function BgpRefs(b: BgpSeed, env: Env): map<Role, nat> {
    var local := Optional(SpeakerRefs(b, env), LocalIp, env, Text(b.localIp));
    Optional(Optional(local, RemoteIp, env, Text(b.remoteIp)), InVrf, env, Text(DEFAULT_VRF))
  }

  lemma BgpAction(b: BgpSeed, env: Env)
    ensures ActionFor(BgpSession, BgpPlan(b), env)
            == Upsert(Text(b.description),
                      Record(BgpSession, Text(b.description), b.attributes, BgpRefs(b, env)), true)
  {
    hide Resolve;
    hide Optional;
    var w := BgpPlan(b).wants;
    assert Resolve([], env) == Refs(map[]) by { ResolveNothing(env); }
    var w1, w2, w3, w4, w5 := [] + [w[0]], [] + [w[0]] + [w[1]], [] + [w[0]] + [w[1]] + [w[2]],
      [] + [w[0]] + [w[1]] + [w[2]] + [w[3]], [] + [w[0]] + [w[1]] + [w[2]] + [w[3]] + [w[4]];
    ResolveMay([], OfDevice, w[0].key, env);
    ResolveMay(w1, LocalAs, w[1].key, env);
    ResolveMay(w2, RemoteAs, w[2].key, env);
    ResolveMay(w3, LocalIp, w[3].key, env);
    ResolveMay(w4, RemoteIp, w[4].key, env);
    ResolveMay(w5, InVrf, w[5].key, env);
    assert w == w5 + [w[5]];
  }

  lemma ResolveNothing(env: Env)
    ensures Resolve([], env) == Refs(map[])
  {
  }

  lemma IntentAction(i: IntentSeed, env: Env)
    ensures var a, b := IdOf(env, Endpoint, Text(i.source)), IdOf(env, Endpoint, Text(i.destination));
            ActionFor(Intent, IntentPlan(i), env) ==
            if a.None? || b.None? then Missing
            else Upsert(Text(i.name),
                        Record(Intent, Text(i.name), i.attributes, map[FromEndpoint := a.value, ToEndpoint := b.value]),
                        false)
  {
    var a, b := Want(FromEndpoint, Text(i.source), Must), Want(ToEndpoint, Text(i.destination), Must);
    ResolveOne(a, env);
    ResolveSnoc([a], b, env);
    assert IntentPlan(i).wants == [a] + [b];
  }

  lemma EndpointAction(e: EndpointSeed, env: Env)
    ensures var service := IdOf(env, Service, Text(e.service));
            ActionFor(Endpoint, EndpointPlan(e), env) ==
            if service.None? then Missing
            else Upsert(
              Text(e.name), Record(Endpoint, Text(e.name), e.attributes, map[OfService := service.value]), false)
  {
    ResolveOne(Want(OfService, Text(e.service), Must), env);
  }

  lemma ServiceAction(s: Named, env: Env)
    ensures ActionFor(Service, ServicePlan(s), env)
            == Upsert(Text(s.name), Record(Service, Text(s.name), s.attributes, map[]), false)
  {
  }

  /** No want of a device entry skips it. */
  lemma DeviceAction(seed: SeedData, d: DeviceSeed, env: Env)
    ensures var a := ActionFor(Device, DevicePlan(seed, d), env);
            a == Missing || (a.Upsert? && a.name == Text(d.name) && !a.soft)
  {
    NeverSkips(DevicePlan(seed, d).wants, env);
  }

  lemma {:induction false} NeverSkips(wants: seq<Want>, env: Env)
    requires forall i | 0 <= i < |wants| :: wants[i].policy != OrSkip
    ensures Resolve(wants, env) != SkipEntry
    decreases |wants|
  {
    if wants != [] { NeverSkips(wants[..|wants| - 1], env); }
  }
}
