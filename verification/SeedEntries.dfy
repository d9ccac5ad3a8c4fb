/** What the entries of the seed data describe, said of a store and the seed data alone: which keys they
    make known, and which objects, with which references, they ask for. */
module SeedEntries {
  import opened Json
  import opened SeedStore
  import opened Seeding

  // --- the specification --------------------------------------------------------------------

  predicate IsDevice(seed: SeedData, name: string) {
    exists d | d in seed.devices :: d.name == name
  }

  /** The seed data has an entry that makes this key known among the objects of this kind. Nothing refers
      to prefixes, interfaces, sessions or rules. */
  predicate Known(seed: SeedData, kind: Kind, key: Key) {
    match kind
    case Manufacturer => key == Text(seed.manufacturer.name)
    case Location => key == Text(seed.location.name)
    case Platform => key == Text(seed.platform.name)
    case DeviceType => exists d | d in seed.deviceTypes :: key == Text(d.name)
    case AutonomousSystem => exists a | a in seed.autonomousSystems :: key == Number(a.asn)
    case Namespace => key == Text("default")
    case Vrf => exists v | v in seed.vrfs :: key == Text(v.name)
    case Device => key.Text? && IsDevice(seed, key.text)
    case IpAddress => exists i | i in seed.interfaces :: HasAddress(i) && key == Text(i.ipAddress.value)
    case Service => exists x | x in seed.services :: key == Text(x.name)
    case Endpoint => exists e | e in seed.endpoints :: key == Text(e.name)
    case Intent => exists i | i in seed.intents :: key == Text(i.name)
    case Binding => exists b | b in seed.bindings :: key == Text(b.name) && IsDevice(seed, b.device)
    case Prefix | Interface | BgpSession | RuleSet => false
  }

  /** The references are those of `links` whose key is known, each to the object that a lookup of that key
      finds. */
  ghost predicate Linked(refs: map<Role, nat>, links: map<Role, Key>, seed: SeedData, store: Store) {
    && (forall role :: role in refs <==> role in links && Known(seed, Wants(role), links[role]))
    && forall role | role in refs :: Find(store, Wants(role), links[role]) == Some(refs[role])
  }

  ghost predicate Matches(
      r: Record, key: Key, attributes: Attributes, links: map<Role, Key>, seed: SeedData, store: Store) {
    r.key == key && r.attributes == attributes && Linked(r.refs, links, seed, store)
  }

  function InterfaceLinks(i: InterfaceSeed): map<Role, Key> {
    if HasAddress(i) then map[OfDevice := Text(i.device), WithAddress := Text(i.ipAddress.value)]
    else map[OfDevice := Text(i.device)]
  }

  function SessionLinks(b: BgpSeed): map<Role, Key> {
    map[OfDevice := Text(b.localDevice), LocalAs := Number(b.localAs), RemoteAs := Number(b.remoteAs),
        LocalIp := Text(b.localIp), RemoteIp := Text(b.remoteIp), InVrf := Text("default")]
  }

  function DeviceLinks(d: DeviceSeed, seed: SeedData): map<Role, Key> {
    map[AtLocation := Text(seed.location.name), OnPlatform := Text(seed.platform.name),
        OfDeviceType := Text(d.deviceType), OfAs := Number(d.asn)]
  }

  /** Some entry of the seed data describes this object. */
  ghost predicate Described(r: Record, seed: SeedData, store: Store) {
    var maker := Text(seed.manufacturer.name);
    match r.kind
    case Manufacturer => Matches(r, maker, seed.manufacturer.attributes, map[], seed, store)
    case Location => Matches(r, Text(seed.location.name), seed.location.attributes, map[], seed, store)
    case Platform =>
      Matches(r, Text(seed.platform.name), seed.platform.attributes, map[OfManufacturer := maker], seed, store)
    case DeviceType =>
      exists d | d in seed.deviceTypes ::
        Matches(r, Text(d.name), d.attributes,
                map[OfManufacturer := maker, OnPlatform := Text(seed.platform.name)], seed, store)
    case AutonomousSystem =>
      exists a | a in seed.autonomousSystems ::
        Matches(r, Number(a.asn), a.attributes, map[OfManufacturer := maker], seed, store)
    case Namespace =>
      Matches(r, Text("default"), map["description" := "Default IP namespace"], map[], seed, store)
    case Vrf =>
      exists v | v in seed.vrfs ::
        Matches(r, Text(v.name), v.attributes, map[InNamespace := Text("default")], seed, store)
    case Device =>
      exists d | d in seed.devices :: Matches(r, Text(d.name), d.attributes, DeviceLinks(d, seed), seed, store)
    case Prefix =>
      exists p | p in seed.prefixes ::
        Matches(r, Text(p.name), p.attributes, map[InNamespace := Text("default")], seed, store)
    case IpAddress =>
      exists i | i in seed.interfaces ::
        && HasAddress(i)
        && Matches(r, Text(i.ipAddress.value), i.ipAttributes, map[InNamespace := Text("default")], seed, store)
    case Interface =>
      exists i | i in seed.interfaces ::
        && IsDevice(seed, i.device) && OfDevice in r.refs
        && Matches(r, OnDevice(i.name, r.refs[OfDevice]), i.attributes, InterfaceLinks(i), seed, store)
    case BgpSession =>
      exists b | b in seed.bgpSessions ::
        Matches(r, Text(b.description), b.attributes, SessionLinks(b), seed, store)
    case Service =>
      exists x | x in seed.services :: Matches(r, Text(x.name), x.attributes, map[], seed, store)
    case Endpoint =>
      exists e | e in seed.endpoints ::
        Matches(r, Text(e.name), e.attributes, map[OfService := Text(e.service)], seed, store)
    case Intent =>
      exists i | i in seed.intents ::
        Matches(r, Text(i.name), i.attributes,
                map[FromEndpoint := Text(i.source), ToEndpoint := Text(i.destination)], seed, store)
    case Binding =>
      exists b | b in seed.bindings ::
        && IsDevice(seed, b.device)
        && Matches(r, Text(b.name), b.attributes,
                   map[OfDevice := Text(b.device), OfIntent := Text(b.intent)], seed, store)
    case RuleSet =>
      exists x | x in seed.rules ::
        && Known(seed, Binding, Text(x.binding))
        && Matches(r, Text(x.name), x.attributes, map[OfBinding := Text(x.binding)], seed, store)
  }

  // --- references of one entry --------------------------------------------------------------

  function LinksOf(wants: seq<Want>): map<Role, Key> {
    if wants == [] then map[]
    else
      var w := wants[|wants| - 1];
      LinksOf(wants[..|wants| - 1])[w.role := w.key]
  }

  predicate DistinctRoles(wants: seq<Want>) {
    forall i, j | 0 <= i < j < |wants| :: wants[i].role != wants[j].role
  }

  /** The ids of a section are the lookups of exactly the known keys. */
  ghost predicate Exact(env: Env, seed: SeedData, store: Store, kind: Kind) {
    && kind in env
    && forall key :: (key in env[kind] <==> Known(seed, kind, key))
                     && (key in env[kind] ==> Find(store, kind, key) == Some(env[kind][key]))
  }

  ghost predicate AllExact(wants: seq<Want>, env: Env, seed: SeedData, store: Store) {
    forall i | 0 <= i < |wants| :: Exact(env, seed, store, Wants(wants[i].role))
  }

  lemma {:induction false} LinkRoles(wants: seq<Want>, role: Role)
    ensures role in LinksOf(wants) <==> exists i | 0 <= i < |wants| :: wants[i].role == role
    decreases |wants|
  {
    if wants != [] {
      var n := |wants| - 1;
      LinkRoles(wants[..n], role);
      if i :| 0 <= i < |wants| && wants[i].role == role && i < n {
        assert wants[..n][i].role == role;
      }
    }
  }

  /** One more link: with its reference if its key is known, and without it otherwise. */
  lemma OneMoreLink(
      refs: map<Role, nat>, links: map<Role, Key>, role: Role, key: Key, id: nat, seed: SeedData, store: Store)
    requires Linked(refs, links, seed, store) && role !in links
    ensures Known(seed, Wants(role), key) && Find(store, Wants(role), key) == Some(id) ==>
              Linked(refs[role := id], links[role := key], seed, store)
    ensures !Known(seed, Wants(role), key) ==> Linked(refs, links[role := key], seed, store)
  {
    hide Known;
    hide Find;
    hide Wants;
  }

  lemma {:induction false} ResolveLinks(wants: seq<Want>, env: Env, seed: SeedData, store: Store)
    requires DistinctRoles(wants) && AllExact(wants, env, seed, store) && Resolve(wants, env).Refs?
    ensures Linked(Resolve(wants, env).refs, LinksOf(wants), seed, store)
    decreases |wants|
  {
    hide Known;
    hide Find;
    hide Wants;
    if wants != [] {
      var n := |wants| - 1;
      var front, w := wants[..n], wants[n];
      assert forall i | 0 <= i < n :: front[i] == wants[i];
      ResolveLinks(front, env, seed, store);
      LinkRoles(front, w.role);
      assert Exact(env, seed, store, Wants(w.role));
      var id := if w.key in env[Wants(w.role)] then env[Wants(w.role)][w.key] else 0;
      OneMoreLink(Resolve(front, env).refs, LinksOf(front), w.role, w.key, id, seed, store);
      hide Linked;
    }
  }

  /** References that are linked the same way are the same. */
  lemma LinkedOnce(a: map<Role, nat>, b: map<Role, nat>, links: map<Role, Key>, seed: SeedData, store: Store)
    requires Linked(a, links, seed, store) && Linked(b, links, seed, store)
    ensures a == b
  {
    hide Known;
    hide Find;
    assert forall role :: role in a <==> role in b;
    forall role | role in a ensures a[role] == b[role] {
      assert Find(store, Wants(role), links[role]) == Some(a[role]);
    }
  }

  /** An entry that resolves has every reference that it may not leave out. */
  lemma {:induction false} ResolveHas(wants: seq<Want>, env: Env)
    requires Resolve(wants, env).Refs?
    ensures forall i | 0 <= i < |wants| && wants[i].policy != May :: wants[i].role in Resolve(wants, env).refs
    decreases |wants|
  {
    if wants != [] {
      var n := |wants| - 1;
      ResolveHas(wants[..n], env);
      assert forall i | 0 <= i < n :: wants[..n][i] == wants[i];
    }
  }

  lemma {:induction false} ResolveTakes(wants: seq<Want>, env: Env)
    requires forall i | 0 <= i < |wants| && wants[i].policy == OrSkip ::
               IdOf(env, Wants(wants[i].role), wants[i].key).Some?
    ensures !Resolve(wants, env).SkipEntry?
    decreases |wants|
  {
    if wants != [] {
      var n := |wants| - 1;
      assert forall i | 0 <= i < n :: wants[..n][i] == wants[i];
      ResolveTakes(wants[..n], env);
    }
  }

  // --- the plans, read as links -------------------------------------------------------------

  lemma LinksSnoc(wants: seq<Want>, w: Want)
    ensures LinksOf(wants + [w]) == LinksOf(wants)[w.role := w.key]
  {
    assert (wants + [w])[..|wants|] == wants;
  }

  lemma ShortLinks(w: seq<Want>)
    ensures |w| == 0 ==> LinksOf(w) == map[]
    ensures |w| == 1 ==> LinksOf(w) == map[w[0].role := w[0].key]
    ensures |w| == 2 ==> LinksOf(w) == map[w[0].role := w[0].key][w[1].role := w[1].key]
  {
    if 1 <= |w| <= 2 {
      LinksSnoc([], w[0]);
      assert w[..1] == [] + [w[0]];
      if |w| == 2 { LinksSnoc(w[..1], w[1]); }
      assert w == if |w| == 1 then w[..1] else w[..1] + [w[1]];
    }
  }

  lemma DevicePlanLinks(seed: SeedData, d: DeviceSeed)
    ensures LinksOf(DevicePlan(seed, d).wants) == DeviceLinks(d, seed)
  {
    var w := DevicePlan(seed, d).wants;
    hide LinksOf;
    ShortLinks([w[0], w[1]]);
    LinksSnoc([w[0], w[1]], w[2]);
    LinksSnoc([w[0], w[1]] + [w[2]], w[3]);
    assert w == [w[0], w[1]] + [w[2]] + [w[3]];
  }

  lemma InterfacePlanLinks(i: InterfaceSeed)
    ensures LinksOf(InterfacePlan(i).wants) == InterfaceLinks(i)
  {
    var w := InterfacePlan(i).wants;
    hide LinksOf;
    ShortLinks(w);
  }

  lemma BgpPlanLinks(b: BgpSeed)
    ensures LinksOf(BgpPlan(b).wants) == SessionLinks(b)
  {
    var w := BgpPlan(b).wants;
    hide LinksOf;
    ShortLinks([w[0], w[1]]);
    LinksSnoc([w[0], w[1]], w[2]);
    LinksSnoc([w[0], w[1]] + [w[2]], w[3]);
    LinksSnoc([w[0], w[1]] + [w[2]] + [w[3]], w[4]);
    LinksSnoc([w[0], w[1]] + [w[2]] + [w[3]] + [w[4]], w[5]);
    assert w == [w[0], w[1]] + [w[2]] + [w[3]] + [w[4]] + [w[5]];
  }

  lemma {:induction false} AddressPlanOf(interfaces: seq<InterfaceSeed>, k: nat)
    requires k < |AddressPlans(interfaces)|
    ensures exists i | i in interfaces ::
              && HasAddress(i)
              && AddressPlans(interfaces)[k] == Simple(i.ipAddress.value, i.ipAttributes,
                                                       [Want(InNamespace, Text(DEFAULT_NAMESPACE), Must)])
    decreases |interfaces|
  {
    var n := |interfaces| - 1;
    if k < |AddressPlans(interfaces[..n])| {
      AddressPlanOf(interfaces[..n], k);
    } else {
      assert interfaces[n] in interfaces && HasAddress(interfaces[n]);
    }
  }

  lemma {:induction false} PlanOfAddress(interfaces: seq<InterfaceSeed>, i: InterfaceSeed) returns (k: nat)
    requires i in interfaces && HasAddress(i)
    ensures k < |AddressPlans(interfaces)|
    ensures AddressPlans(interfaces)[k] == Simple(i.ipAddress.value, i.ipAttributes,
                                                  [Want(InNamespace, Text(DEFAULT_NAMESPACE), Must)])
    decreases |interfaces|
  {
    var n := |interfaces| - 1;
    if i in interfaces[..n] {
      k := PlanOfAddress(interfaces[..n], i);
    } else {
      k := |AddressPlans(interfaces[..n])|;
    }
  }

  /** The references of an entry are to objects of earlier sections, each of another role. */
  predicate WellOrdered(wants: seq<Want>, kind: Kind) {
    && DistinctRoles(wants)
    && forall i | 0 <= i < |wants| :: Rank(Wants(wants[i].role)) < Rank(kind)
  }

  lemma PlanIsWellOrdered(kind: Kind, seed: SeedData, k: nat)
    requires k < |Plans(kind, seed)|
    ensures WellOrdered(Plans(kind, seed)[k].wants, kind)
  {
    match kind
    case IpAddress => AddressPlanOf(seed.interfaces, k);
    case Device => DeviceIsWellOrdered(seed, seed.devices[k]);
    case BgpSession => SessionIsWellOrdered(seed.bgpSessions[k]);
    case Interface => InterfaceIsWellOrdered(seed.interfaces[k]);
    case Service | Endpoint | Intent | Binding | RuleSet => BusinessIsWellOrdered(kind, seed, k);
    case Manufacturer | Location | Platform | DeviceType | AutonomousSystem | Namespace | Vrf | Prefix =>
    hide DevicePlan;
    hide InterfacePlan;
    hide BgpPlan;
    hide AddressPlans;
    hide ServicePlan;
    hide EndpointPlan;
    hide IntentPlan;
    hide BindingPlan;
    hide RulePlan;
  }

  lemma BusinessIsWellOrdered(kind: Kind, seed: SeedData, k: nat)
    requires kind in {Service, Endpoint, Intent, Binding, RuleSet} && k < |Plans(kind, seed)|
    ensures WellOrdered(Plans(kind, seed)[k].wants, kind)
  {
    match kind
    case Service => assert Plans(kind, seed)[k] == ServicePlan(seed.services[k]);
    case Endpoint => assert Plans(kind, seed)[k] == EndpointPlan(seed.endpoints[k]);
    case Intent => assert Plans(kind, seed)[k] == IntentPlan(seed.intents[k]);
    case Binding => assert Plans(kind, seed)[k] == BindingPlan(seed.bindings[k]);
    case RuleSet => assert Plans(kind, seed)[k] == RulePlan(seed.rules[k]);
  }

  lemma DeviceIsWellOrdered(seed: SeedData, d: DeviceSeed)
    ensures WellOrdered(DevicePlan(seed, d).wants, Device)
  {
  }

  lemma SessionIsWellOrdered(b: BgpSeed)
    ensures WellOrdered(BgpPlan(b).wants, BgpSession)
  {
    hide Rank;
    var wants := BgpPlan(b).wants;
    forall i | 0 <= i < |wants| ensures Rank(Wants(wants[i].role)) < Rank(BgpSession) {
      SessionRanks();
    }
  }

  lemma SessionRanks()
    ensures forall kind | kind in {Device, AutonomousSystem, IpAddress, Vrf} :: Rank(kind) < Rank(BgpSession)
  {
  }

  lemma InterfaceIsWellOrdered(i: InterfaceSeed)
    ensures WellOrdered(InterfacePlan(i).wants, Interface)
  {
  }

  /** An object made of an entry: its attributes and key, its links, and none left out that may not be. */
  ghost predicate MadeOf(r: Record, plan: Plan, seed: SeedData, store: Store) {
    && r.attributes == plan.attributes && r.key == KeyFor(r.kind, plan, r.refs)
    && Linked(r.refs, LinksOf(plan.wants), seed, store)
    && forall i | 0 <= i < |plan.wants| && plan.wants[i].policy == OrSkip :: plan.wants[i].role in r.refs
  }

  /** An entry that skips for nothing, and its object. */
  lemma SimpleMade(r: Record, plan: Plan, links: map<Role, Key>, seed: SeedData, store: Store)
    requires r.kind != Interface && LinksOf(plan.wants) == links
    requires forall i | 0 <= i < |plan.wants| :: plan.wants[i].policy != OrSkip
    ensures MadeOf(r, plan, seed, store) <==> Matches(r, plan.name, plan.attributes, links, seed, store)
  {
    hide Linked;
    hide LinksOf;
  }

  lemma InterfaceMade(r: Record, i: InterfaceSeed, seed: SeedData, store: Store)
    requires r.kind == Interface
    ensures MadeOf(r, InterfacePlan(i), seed, store) <==>
            && IsDevice(seed, i.device) && OfDevice in r.refs
            && Matches(r, OnDevice(i.name, r.refs[OfDevice]), i.attributes, InterfaceLinks(i), seed, store)
  {
    InterfacePlanLinks(i);
    hide LinksOf;
    hide Find;
    hide IsDevice;
    var w := InterfacePlan(i).wants;
    assert w[0] == Want(OfDevice, Text(i.device), OrSkip);
  }

  lemma BindingMade(r: Record, b: BindingSeed, seed: SeedData, store: Store)
    requires r.kind == Binding
    ensures MadeOf(r, BindingPlan(b), seed, store) <==>
            && IsDevice(seed, b.device)
            && Matches(r, Text(b.name), b.attributes,
                       map[OfDevice := Text(b.device), OfIntent := Text(b.intent)], seed, store)
  {
    ShortLinks(BindingPlan(b).wants);
    hide LinksOf;
    hide Find;
    hide IsDevice;
    assert BindingPlan(b).wants[0] == Want(OfDevice, Text(b.device), OrSkip);
  }

  lemma RuleMade(r: Record, x: RuleSeed, seed: SeedData, store: Store)
    requires r.kind == RuleSet
    ensures MadeOf(r, RulePlan(x), seed, store) <==>
            && Known(seed, Binding, Text(x.binding))
            && Matches(r, Text(x.name), x.attributes, map[OfBinding := Text(x.binding)], seed, store)
  {
    ShortLinks(RulePlan(x).wants);
    hide LinksOf;
    hide Find;
    hide Known;
    assert RulePlan(x).wants[0] == Want(OfBinding, Text(x.binding), OrSkip);
  }

  predicate Fabric(kind: Kind) {
    kind in {Manufacturer, Location, Platform, DeviceType, AutonomousSystem, Namespace, Vrf, Prefix}
  }

  lemma FabricDescribed(r: Record, k: nat, seed: SeedData, store: Store)
    requires Fabric(r.kind) && k < |Plans(r.kind, seed)| && MadeOf(r, Plans(r.kind, seed)[k], seed, store)
    ensures Described(r, seed, store)
  {
    hide MadeOf;
    hide LinksOf;
    hide Matches;
    if r.kind in {DeviceType, AutonomousSystem, Vrf, Prefix} {
      ListedDescribed(r, k, seed, store);
      hide Plans;
      hide Described;
    } else {
      var plan := Plans(r.kind, seed)[k];
      ShortLinks(plan.wants);
      SimpleMade(r, plan, LinksOf(plan.wants), seed, store);
    }
  }

  lemma ListedDescribed(r: Record, k: nat, seed: SeedData, store: Store)
    requires r.kind in {DeviceType, AutonomousSystem, Vrf, Prefix}
    requires k < |Plans(r.kind, seed)| && MadeOf(r, Plans(r.kind, seed)[k], seed, store)
    ensures Described(r, seed, store)
  {
    hide MadeOf;
    hide LinksOf;
    hide Matches;
    var plan := Plans(r.kind, seed)[k];
    ShortLinks(plan.wants);
    SimpleMade(r, plan, LinksOf(plan.wants), seed, store);
    if r.kind == DeviceType {
      assert seed.deviceTypes[k] in seed.deviceTypes;
    } else if r.kind == AutonomousSystem {
      assert seed.autonomousSystems[k] in seed.autonomousSystems;
    } else if r.kind == Vrf {
      assert seed.vrfs[k] in seed.vrfs;
    } else {
      assert seed.prefixes[k] in seed.prefixes;
    }
  }

  lemma DescribedFabric(r: Record, seed: SeedData, store: Store) returns (k: nat)
    requires Fabric(r.kind) && Described(r, seed, store)
    ensures k < |Plans(r.kind, seed)| && MadeOf(r, Plans(r.kind, seed)[k], seed, store)
  {
    hide MadeOf;
    hide LinksOf;
    hide Matches;
    if r.kind in {DeviceType, AutonomousSystem} {
      k := DescribedMakes(r, seed, store);
    } else if r.kind in {Vrf, Prefix} {
      k := DescribedSpaces(r, seed, store);
    } else {
      k := 0;
      var plan := Plans(r.kind, seed)[0];
      ShortLinks(plan.wants);
      SimpleMade(r, plan, LinksOf(plan.wants), seed, store);
    }
  }

  lemma DescribedMakes(r: Record, seed: SeedData, store: Store) returns (k: nat)
    requires r.kind in {DeviceType, AutonomousSystem} && Described(r, seed, store)
    ensures k < |Plans(r.kind, seed)| && MadeOf(r, Plans(r.kind, seed)[k], seed, store)
  {
    hide MadeOf;
    hide LinksOf;
    hide Matches;
    var maker := map[OfManufacturer := Text(seed.manufacturer.name)];
    if r.kind == DeviceType {
      var links := maker[OnPlatform := Text(seed.platform.name)];
      var d :| d in seed.deviceTypes && Matches(r, Text(d.name), d.attributes, links, seed, store);
      k :| 0 <= k < |seed.deviceTypes| && seed.deviceTypes[k] == d;
    } else {
      var a :| a in seed.autonomousSystems && Matches(r, Number(a.asn), a.attributes, maker, seed, store);
      k :| 0 <= k < |seed.autonomousSystems| && seed.autonomousSystems[k] == a;
    }
    var plan := Plans(r.kind, seed)[k];
    ShortLinks(plan.wants);
    SimpleMade(r, plan, LinksOf(plan.wants), seed, store);
  }

  lemma DescribedSpaces(r: Record, seed: SeedData, store: Store) returns (k: nat)
    requires r.kind in {Vrf, Prefix} && Described(r, seed, store)
    ensures k < |Plans(r.kind, seed)| && MadeOf(r, Plans(r.kind, seed)[k], seed, store)
  {
    hide MadeOf;
    hide LinksOf;
    hide Matches;
    var entries, links := if r.kind == Vrf then seed.vrfs else seed.prefixes, map[InNamespace := Text("default")];
    var x :| x in entries && Matches(r, Text(x.name), x.attributes, links, seed, store);
    k :| 0 <= k < |entries| && entries[k] == x;
    var plan := Plans(r.kind, seed)[k];
    ShortLinks(plan.wants);
    SimpleMade(r, plan, LinksOf(plan.wants), seed, store);
  }

  predicate Network(kind: Kind) {
    kind in {Device, IpAddress, Interface, BgpSession}
  }

  lemma NetworkDescribed(r: Record, k: nat, seed: SeedData, store: Store)
    requires Network(r.kind) && k < |Plans(r.kind, seed)| && MadeOf(r, Plans(r.kind, seed)[k], seed, store)
    ensures Described(r, seed, store)
  {
    hide MadeOf;
    hide LinksOf;
    hide Matches;
    hide InterfacePlan;
    match r.kind
    case IpAddress =>
      AddressPlanOf(seed.interfaces, k);
      AddressMade(r, Plans(IpAddress, seed)[k], seed, store);
    case Device =>
      assert seed.devices[k] in seed.devices;
      DeviceMade(r, seed.devices[k], seed, store);
    case Interface =>
      assert seed.interfaces[k] in seed.interfaces && Plans(Interface, seed)[k] == InterfacePlan(seed.interfaces[k]);
      InterfaceMade(r, seed.interfaces[k], seed, store);
    case BgpSession =>
      assert seed.bgpSessions[k] in seed.bgpSessions && Plans(BgpSession, seed)[k] == BgpPlan(seed.bgpSessions[k]);
      SessionMade(r, seed.bgpSessions[k], seed, store);
    hide DevicePlan;
    hide BgpPlan;
    hide AddressPlans;
  }

  lemma DescribedNetwork(r: Record, seed: SeedData, store: Store) returns (k: nat)
    requires Network(r.kind) && Described(r, seed, store)
    ensures k < |Plans(r.kind, seed)| && MadeOf(r, Plans(r.kind, seed)[k], seed, store)
  {
    hide MadeOf;
    hide LinksOf;
    hide Matches;
    hide InterfacePlan;
    hide DevicePlan;
    hide BgpPlan;
    hide AddressPlans;
    match r.kind {
      case IpAddress =>
        var links := map[InNamespace := Text("default")];
        var i :| i in seed.interfaces && HasAddress(i)
                 && Matches(r, Text(i.ipAddress.value), i.ipAttributes, links, seed, store);
        k := PlanOfAddress(seed.interfaces, i);
        AddressMade(r, Plans(IpAddress, seed)[k], seed, store);
      case Device =>
        var d :| d in seed.devices && Matches(r, Text(d.name), d.attributes, DeviceLinks(d, seed), seed, store);
        k :| 0 <= k < |seed.devices| && seed.devices[k] == d;
        DeviceMade(r, d, seed, store);
      case Interface =>
        var i :| i in seed.interfaces && IsDevice(seed, i.device) && OfDevice in r.refs
                 && Matches(r, OnDevice(i.name, r.refs[OfDevice]), i.attributes, InterfaceLinks(i), seed, store);
        k :| 0 <= k < |seed.interfaces| && seed.interfaces[k] == i;
        InterfaceMade(r, i, seed, store);
      case BgpSession =>
        var b :| b in seed.bgpSessions && Matches(r, Text(b.description), b.attributes, SessionLinks(b), seed, store);
        k :| 0 <= k < |seed.bgpSessions| && seed.bgpSessions[k] == b;
        SessionMade(r, b, seed, store);
    }
  }

  lemma DeviceMade(r: Record, d: DeviceSeed, seed: SeedData, store: Store)
    requires r.kind == Device
    ensures MadeOf(r, DevicePlan(seed, d), seed, store)
            <==> Matches(r, Text(d.name), d.attributes, DeviceLinks(d, seed), seed, store)
  {
    DevicePlanLinks(seed, d);
    hide LinksOf;
    SimpleMade(r, DevicePlan(seed, d), DeviceLinks(d, seed), seed, store);
  }

  lemma SessionMade(r: Record, b: BgpSeed, seed: SeedData, store: Store)
    requires r.kind == BgpSession
    ensures MadeOf(r, BgpPlan(b), seed, store)
            <==> Matches(r, Text(b.description), b.attributes, SessionLinks(b), seed, store)
  {
    BgpPlanLinks(b);
    hide LinksOf;
    SimpleMade(r, BgpPlan(b), SessionLinks(b), seed, store);
  }

  lemma AddressMade(r: Record, plan: Plan, seed: SeedData, store: Store)
    requires r.kind == IpAddress && plan.wants == [Want(InNamespace, Text("default"), Must)]
    ensures MadeOf(r, plan, seed, store)
            <==> Matches(r, plan.name, plan.attributes, map[InNamespace := Text("default")], seed, store)
  {
    ShortLinks(plan.wants);
    hide LinksOf;
    SimpleMade(r, plan, map[InNamespace := Text("default")], seed, store);
  }

  lemma BusinessDescribed(r: Record, k: nat, seed: SeedData, store: Store)
    requires !Fabric(r.kind) && !Network(r.kind)
    requires k < |Plans(r.kind, seed)| && MadeOf(r, Plans(r.kind, seed)[k], seed, store)
    ensures Described(r, seed, store)
  {
    hide MadeOf;
    hide LinksOf;
    hide Matches;
    var plan := Plans(r.kind, seed)[k];
    ShortLinks(plan.wants);
    match r.kind
    case Service =>
      assert seed.services[k] in seed.services && plan == ServicePlan(seed.services[k]);
      SimpleMade(r, plan, LinksOf(plan.wants), seed, store);
    case Endpoint =>
      assert seed.endpoints[k] in seed.endpoints && plan == EndpointPlan(seed.endpoints[k]);
      SimpleMade(r, plan, LinksOf(plan.wants), seed, store);
    case Intent =>
      assert seed.intents[k] in seed.intents && plan == IntentPlan(seed.intents[k]);
      SimpleMade(r, plan, LinksOf(plan.wants), seed, store);
    case Binding =>
      assert seed.bindings[k] in seed.bindings && plan == BindingPlan(seed.bindings[k]);
      BindingMade(r, seed.bindings[k], seed, store);
    case RuleSet =>
      assert seed.rules[k] in seed.rules && plan == RulePlan(seed.rules[k]);
      RuleMade(r, seed.rules[k], seed, store);
  }

  lemma DescribedBusiness(r: Record, seed: SeedData, store: Store) returns (k: nat)
    requires !Fabric(r.kind) && !Network(r.kind) && Described(r, seed, store)
    ensures k < |Plans(r.kind, seed)| && MadeOf(r, Plans(r.kind, seed)[k], seed, store)
  {
    hide MadeOf;
    hide LinksOf;
    hide Matches;
    match r.kind {
      case Service =>
        var x :| x in seed.services && Matches(r, Text(x.name), x.attributes, map[], seed, store);
        k :| 0 <= k < |seed.services| && seed.services[k] == x;
        ShortLinks(ServicePlan(x).wants);
        SimpleMade(r, ServicePlan(x), map[], seed, store);
      case Endpoint =>
        var e :| e in seed.endpoints
                 && Matches(r, Text(e.name), e.attributes, map[OfService := Text(e.service)], seed, store);
        k :| 0 <= k < |seed.endpoints| && seed.endpoints[k] == e;
        ShortLinks(EndpointPlan(e).wants);
        SimpleMade(r, EndpointPlan(e), map[OfService := Text(e.service)], seed, store);
      case Intent =>
        k := DescribedIntent(r, seed, store);
      case Binding =>
        var b :| b in seed.bindings && IsDevice(seed, b.device)
                 && Matches(r, Text(b.name), b.attributes,
                            map[OfDevice := Text(b.device), OfIntent := Text(b.intent)], seed, store);
        k :| 0 <= k < |seed.bindings| && seed.bindings[k] == b;
        BindingMade(r, b, seed, store);
      case RuleSet =>
        var x :| x in seed.rules && Known(seed, Binding, Text(x.binding))
                 && Matches(r, Text(x.name), x.attributes, map[OfBinding := Text(x.binding)], seed, store);
        k :| 0 <= k < |seed.rules| && seed.rules[k] == x;
        RuleMade(r, x, seed, store);
    }
  }

  lemma DescribedIntent(r: Record, seed: SeedData, store: Store) returns (k: nat)
    requires r.kind == Intent && Described(r, seed, store)
    ensures k < |Plans(Intent, seed)| && MadeOf(r, Plans(Intent, seed)[k], seed, store)
  {
    hide MadeOf;
    hide LinksOf;
    hide Matches;
    var i :| i in seed.intents
             && Matches(r, Text(i.name), i.attributes,
                        map[FromEndpoint := Text(i.source), ToEndpoint := Text(i.destination)], seed, store);
    k :| 0 <= k < |seed.intents| && seed.intents[k] == i;
    ShortLinks(IntentPlan(i).wants);
    SimpleMade(r, IntentPlan(i), LinksOf(IntentPlan(i).wants), seed, store);
  }

  lemma MadeIsDescribed(r: Record, k: nat, seed: SeedData, store: Store)
    requires k < |Plans(r.kind, seed)| && MadeOf(r, Plans(r.kind, seed)[k], seed, store)
    ensures Described(r, seed, store)
  {
    hide MadeOf;
    hide Described;
    hide Plans;
    if Fabric(r.kind) {
      FabricDescribed(r, k, seed, store);
    } else if Network(r.kind) {
      NetworkDescribed(r, k, seed, store);
    } else {
      BusinessDescribed(r, k, seed, store);
    }
  }

  lemma DescribedIsMade(r: Record, seed: SeedData, store: Store) returns (k: nat)
    requires Described(r, seed, store)
    ensures k < |Plans(r.kind, seed)| && MadeOf(r, Plans(r.kind, seed)[k], seed, store)
  {
    hide MadeOf;
    hide Described;
    hide Plans;
    if Fabric(r.kind) {
      k := DescribedFabric(r, seed, store);
    } else if Network(r.kind) {
      k := DescribedNetwork(r, seed, store);
    } else {
      k := DescribedBusiness(r, seed, store);
    }
  }
}
