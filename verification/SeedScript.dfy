/** The seeding functions as they are written: loops over the sections of the seed data that look
    objects up, create them, and fill id dictionaries. Each is proved to do one pass of `Seeding`. */
module SeedScript {
  import opened Json
  import opened SeedStore
  import opened Seeding

  /** The pass over the first `i` entries. */
  function Pass(s: Store, kind: Kind, plans: seq<Plan>, env: Env, judge: Record -> Verdict, i: nat): Phase
    requires i <= |plans|
  {
    Fold(s, ActionsFor(kind, plans[..i], env), judge)
  }

  function WholePass(s: Store, kind: Kind, plans: seq<Plan>, env: Env, judge: Record -> Verdict): Phase {
    Fold(s, ActionsFor(kind, plans, env), judge)
  }

  lemma PassStarts(s: Store, kind: Kind, plans: seq<Plan>, env: Env, judge: Record -> Verdict)
    ensures Pass(s, kind, plans, env, judge, 0) == Phase(s, map[], None)
    ensures Pass(s, kind, plans, env, judge, |plans|) == WholePass(s, kind, plans, env, judge)
  {
    assert plans[..|plans|] == plans;
  }

  /** One more entry of a pass; and a pass that has failed stays as it is. */
  lemma PassStep(s: Store, kind: Kind, plans: seq<Plan>, env: Env, judge: Record -> Verdict, i: nat)
    requires i < |plans|
    ensures var p := Apply(Pass(s, kind, plans, env, judge, i), ActionFor(kind, plans[i], env), judge);
            && Pass(s, kind, plans, env, judge, i + 1) == p
            && (p.failure.Some? ==> WholePass(s, kind, plans, env, judge) == p)
  {
    var actions := ActionsFor(kind, plans[..i + 1], env);
    assert actions[..i] == ActionsFor(kind, plans[..i], env);
    assert actions[i] == ActionFor(kind, plans[i], env);
    hide Apply;
    hide ActionFor;
    if Pass(s, kind, plans, env, judge, i + 1).failure.Some? {
      PassFailed(s, kind, plans, env, judge, i + 1);
    }
  }

  lemma {:induction false} PassFailed(
      s: Store, kind: Kind, plans: seq<Plan>, env: Env, judge: Record -> Verdict, i: nat)
    requires i <= |plans| && Pass(s, kind, plans, env, judge, i).failure.Some?
    ensures WholePass(s, kind, plans, env, judge) == Pass(s, kind, plans, env, judge, i)
    decreases |plans| - i
  {
    if i < |plans| {
      var actions := ActionsFor(kind, plans[..i + 1], env);
      assert actions[..i] == ActionsFor(kind, plans[..i], env);
      PassFailed(s, kind, plans, env, judge, i + 1);
    } else {
      assert plans[..i] == plans;
    }
  }

  datatype Counts = Counts(services: nat, endpoints: nat, intents: nat, bindings: nat, rules: nat)

  class SourceOfTruth {
    var records: Store
    const judge: Record -> Verdict

    constructor (records: Store, judge: Record -> Verdict)
      ensures this.records == records && this.judge == judge
    {
      this.records, this.judge := records, judge;
    }

    /** The lookup query. */
    method Query(kind: Kind, key: Key) returns (edges: seq<nat>)
      ensures edges == [] <==> Find(records, kind, key).None?
      ensures edges != [] ==> Find(records, kind, key) == Some(edges[0])
    {
      hide Find;
      edges := [];
      for i := 0 to |records|
        invariant edges == [] ==> forall j | 0 <= j < i :: !Is(records[j], kind, key)
        invariant edges != [] ==> edges[0] < i && Is(records[edges[0]], kind, key)
                                  && forall j | 0 <= j < edges[0] :: !Is(records[j], kind, key)
      {
        if Is(records[i], kind, key) {
          edges := edges + [i];
        }
      }
    }

    /** The creation mutation. */
    method Create(record: Record) returns (verdict: Verdict)
      modifies this
      ensures verdict == judge(record)
      ensures records == if verdict == Accept then old(records) + [record] else old(records)
    {
      verdict := judge(record);
      if verdict == Accept {
        records := records + [record];
      }
    }

    /** The id of the object, created if need be, or the exception when it is not created. */
    method GetOrCreate(record: Record) returns (id: nat, failure: Option<Failure>)
      modifies this
      ensures match Find(old(records), record.kind, record.key)
              case Some(i) => records == old(records) && id == i && failure.None?
              case None =>
                && failure == Stops(judge(record), false)
                && records == (if failure.None? then old(records) + [record] else old(records))
                && (failure.None? ==> id == |old(records)|)
    {
      var edges := Query(record.kind, record.key);
      if edges != [] {
        return edges[0], None;
      }
      id := |records|;
      var verdict := Create(record);
      failure := match verdict case Accept => None case Refuse => Some(CreateFailed) case Raise => Some(GraphQlError);
    }

    /** The addresses of the interfaces, each once: a repeated address is not even looked up again. */
    method PopulateIpAddresses(interfaces: seq<InterfaceSeed>, namespaceId: nat, ghost env: Env)
      returns (ids: Ids, failure: Option<Failure>)
      requires IdOf(env, Namespace, Text(DEFAULT_NAMESPACE)) == Some(namespaceId)
      modifies this
      ensures Phase(records, ids, failure) == WholePass(old(records), IpAddress, AddressPlans(interfaces), env, judge)
    {
      hide Find;
      hide Pass;
      hide WholePass;
      hide ActionFor;
      hide AddressPlans;
      ghost var plans := AddressPlans(interfaces);
      ghost var n := 0;
      ids, failure := map[], None;
      PassStarts(records, IpAddress, plans, env, judge);
      AddressCount(interfaces, 0);
      for i := 0 to |interfaces|
        invariant failure.None? && n == |AddressPlans(interfaces[..i])| <= |plans|
        invariant Phase(records, ids, None) == Pass(old(records), IpAddress, plans, env, judge, n)
        invariant forall k | k in ids :: Find(records, IpAddress, k) == Some(ids[k])
      {
        var iface := interfaces[i];
        AddressCount(interfaces, i + 1);
        AddressPlanAt(interfaces, i, env, namespaceId);
        if iface.ipAddress.None? || iface.ipAddress.value == "" {
          continue;
        }
        var ip := Text(iface.ipAddress.value);
        PassStep(old(records), IpAddress, plans, env, judge, n);
        n := n + 1;
        if ip in ids {
          assert ids[ip := ids[ip]] == ids;
          continue;
        }
        var record := Record(IpAddress, ip, iface.ipAttributes, map[InNamespace := namespaceId]);
        ghost var before := records;
        var id;
        id, failure := GetOrCreate(record);
        if failure.Some? {
          return map[], failure;
        }
        FoundStays(before, records, ids, IpAddress);
        if records != before { AddedIsFound(before, record); }
        ids := ids[ip := id];
      }
      AddressCount(interfaces, |interfaces|);
    }

    /** An interface whose device is unknown is skipped; one whose creation is refused is only logged; an
        error raises. */
    method PopulateInterfaces(interfaces: seq<InterfaceSeed>, deviceIds: Ids, ipIds: Ids, ghost env: Env)
      returns (ids: Ids, failure: Option<Failure>)
      requires Has(env, Device, deviceIds) && Has(env, IpAddress, ipIds)
      modifies this
      ensures Phase(records, ids, failure)
              == WholePass(old(records), Interface, Each(interfaces, InterfacePlan), env, judge)
    {
      hide Find;
      hide Pass;
      hide WholePass;
      hide ActionFor;
      hide InterfacePlan;
      ghost var plans := Each(interfaces, InterfacePlan);
      ids, failure := map[], None;
      PassStarts(records, Interface, plans, env, judge);
      for i := 0 to |interfaces|
        invariant failure.None?
        invariant Phase(records, ids, None) == Pass(old(records), Interface, plans, env, judge, i)
      {
        var iface := interfaces[i];
        var key := Text(iface.device + ":" + iface.name);
        PassStep(old(records), Interface, plans, env, judge, i);
        InterfaceActions(iface, env);
        if Text(iface.device) !in deviceIds {
          continue;
        }
        var deviceId := deviceIds[Text(iface.device)];
        var refs := map[OfDevice := deviceId];
        if iface.ipAddress.Some? && iface.ipAddress.value != "" && Text(iface.ipAddress.value) in ipIds {
          refs := refs[WithAddress := ipIds[Text(iface.ipAddress.value)]];
        }
        var ifaceId := |records|;
        var edges := Query(Interface, OnDevice(iface.name, deviceId));
        if edges != [] {
          ifaceId := edges[0];
        } else {
          var verdict := Create(Record(Interface, OnDevice(iface.name, deviceId), iface.attributes, refs));
          if verdict == Raise {
            return map[], Some(GraphQlError);
          }
          if verdict == Refuse {
            continue;
          }
        }
        ids := ids[key := ifaceId];
      }
    }

    /** Each reference of a session is filled in when its name is known; a refusal is only logged, an error
        raises. */
    method PopulateBgpSessions(
        sessions: seq<BgpSeed>, deviceIds: Ids, asIds: Ids, ipIds: Ids, vrfIds: Ids, ghost env: Env)
      returns (ghost ids: Ids, failure: Option<Failure>)
      requires Has(env, Device, deviceIds) && Has(env, AutonomousSystem, asIds)
      requires Has(env, IpAddress, ipIds) && Has(env, Vrf, vrfIds)
      modifies this
      ensures Phase(records, ids, failure)
              == WholePass(old(records), BgpSession, Each(sessions, BgpPlan), env, judge)
    {
      hide Find;
      hide Pass;
      hide WholePass;
      hide ActionFor;
      hide BgpPlan;
      hide BgpRefs;
      ghost var plans := Each(sessions, BgpPlan);
      ids, failure := map[], None;
      PassStarts(records, BgpSession, plans, env, judge);
      for i := 0 to |sessions|
        invariant failure.None?
        invariant Phase(records, ids, None) == Pass(old(records), BgpSession, plans, env, judge, i)
      {
        var session := sessions[i];
        var refs := SessionRefs(session, deviceIds, asIds, ipIds, vrfIds, env);
        PassStep(old(records), BgpSession, plans, env, judge, i);
        BgpAction(session, env);
        ghost var id := |records|;
        var edges := Query(BgpSession, Text(session.description));
        if edges != [] {
          id := edges[0];
        } else {
          var verdict := Create(Record(BgpSession, Text(session.description), session.attributes, refs));
          if verdict == Raise {
            return map[], Some(GraphQlError);
          }
          if verdict == Refuse {
            continue;
          }
        }
        ids := ids[Text(session.description) := id];
      }
    }

    method SessionRefs(session: BgpSeed, deviceIds: Ids, asIds: Ids, ipIds: Ids, vrfIds: Ids, ghost env: Env)
      returns (refs: map<Role, nat>)
      requires Has(env, Device, deviceIds) && Has(env, AutonomousSystem, asIds)
      requires Has(env, IpAddress, ipIds) && Has(env, Vrf, vrfIds)
      ensures refs == BgpRefs(session, env)
    {
      hide SpeakerRefs;
      refs := AddSpeaker(session, deviceIds, asIds, env);
      if Text(session.localIp) in ipIds {
        refs := refs[LocalIp := ipIds[Text(session.localIp)]];
      }
      if Text(session.remoteIp) in ipIds {
        refs := refs[RemoteIp := ipIds[Text(session.remoteIp)]];
      }
      if Text(DEFAULT_VRF) in vrfIds {
        refs := refs[InVrf := vrfIds[Text(DEFAULT_VRF)]];
      }
    }

    method AddSpeaker(session: BgpSeed, deviceIds: Ids, asIds: Ids, ghost env: Env) returns (refs: map<Role, nat>)
      requires Has(env, Device, deviceIds) && Has(env, AutonomousSystem, asIds)
      ensures refs == SpeakerRefs(session, env)
    {
      refs := map[];
      if Text(session.localDevice) in deviceIds {
        refs := refs[OfDevice := deviceIds[Text(session.localDevice)]];
      }
      if Number(session.localAs) in asIds {
        refs := refs[LocalAs := asIds[Number(session.localAs)]];
      }
      if Number(session.remoteAs) in asIds {
        refs := refs[RemoteAs := asIds[Number(session.remoteAs)]];
      }
    }

    method SeedServices(services: seq<Named>, ghost env: Env) returns (ids: Ids, failure: Option<Failure>)
      modifies this
      ensures Phase(records, ids, failure) == WholePass(old(records), Service, Each(services, ServicePlan), env, judge)
    {
      hide Find;
      hide Pass;
      hide WholePass;
      hide ActionFor;
      hide ServicePlan;
      ghost var plans := Each(services, ServicePlan);
      ids, failure := map[], None;
      PassStarts(records, Service, plans, env, judge);
      for i := 0 to |services|
        invariant failure.None?
        invariant Phase(records, ids, None) == Pass(old(records), Service, plans, env, judge, i)
      {
        var service := services[i];
        PassStep(old(records), Service, plans, env, judge, i);
        ServiceAction(service, env);
        var id;
        id, failure := GetOrCreate(Record(Service, Text(service.name), service.attributes, map[]));
        if failure.Some? {
          return map[], failure;
        }
        ids := ids[Text(service.name) := id];
      }
    }

    method SeedEndpoints(endpoints: seq<EndpointSeed>, serviceIds: Ids, ghost env: Env)
      returns (ids: Ids, failure: Option<Failure>)
      requires Has(env, Service, serviceIds)
      modifies this
      ensures Phase(records, ids, failure)
              == WholePass(old(records), Endpoint, Each(endpoints, EndpointPlan), env, judge)
    {
      hide Find;
      hide Pass;
      hide WholePass;
      hide ActionFor;
      hide EndpointPlan;
      ghost var plans := Each(endpoints, EndpointPlan);
      ids, failure := map[], None;
      PassStarts(records, Endpoint, plans, env, judge);
      for i := 0 to |endpoints|
        invariant failure.None?
        invariant Phase(records, ids, None) == Pass(old(records), Endpoint, plans, env, judge, i)
      {
        var endpoint := endpoints[i];
        PassStep(old(records), Endpoint, plans, env, judge, i);
        EndpointAction(endpoint, env);
        if Text(endpoint.service) !in serviceIds {
          return map[], Some(KeyError);
        }
        var refs := map[OfService := serviceIds[Text(endpoint.service)]];
        var id;
        id, failure := GetOrCreate(Record(Endpoint, Text(endpoint.name), endpoint.attributes, refs));
        if failure.Some? {
          return map[], failure;
        }
        ids := ids[Text(endpoint.name) := id];
      }
    }

    method SeedIntents(intents: seq<IntentSeed>, endpointIds: Ids, ghost env: Env)
      returns (ids: Ids, failure: Option<Failure>)
      requires Has(env, Endpoint, endpointIds)
      modifies this
      ensures Phase(records, ids, failure) == WholePass(old(records), Intent, Each(intents, IntentPlan), env, judge)
    {
      hide Find;
      hide Pass;
      hide WholePass;
      hide ActionFor;
      hide IntentPlan;
      ghost var plans := Each(intents, IntentPlan);
      ids, failure := map[], None;
      PassStarts(records, Intent, plans, env, judge);
      for i := 0 to |intents|
        invariant failure.None?
        invariant Phase(records, ids, None) == Pass(old(records), Intent, plans, env, judge, i)
      {
        var intent := intents[i];
        PassStep(old(records), Intent, plans, env, judge, i);
        IntentAction(intent, env);
        if Text(intent.source) !in endpointIds || Text(intent.destination) !in endpointIds {
          return map[], Some(KeyError);
        }
        var refs := map[FromEndpoint := endpointIds[Text(intent.source)],
                        ToEndpoint := endpointIds[Text(intent.destination)]];
        var id;
        id, failure := GetOrCreate(Record(Intent, Text(intent.name), intent.attributes, refs));
        if failure.Some? {
          return map[], failure;
        }
        ids := ids[Text(intent.name) := id];
      }
    }

    /** A binding for a device that is not in the source of truth is skipped. */
    method SeedBindings(bindings: seq<BindingSeed>, intentIds: Ids, deviceIds: Ids, ghost env: Env)
      returns (ids: Ids, failure: Option<Failure>)
      requires Has(env, Intent, intentIds) && Has(env, Device, deviceIds)
      modifies this
      ensures Phase(records, ids, failure) == WholePass(old(records), Binding, Each(bindings, BindingPlan), env, judge)
    {
      hide Find;
      hide Pass;
      hide WholePass;
      hide ActionFor;
      hide BindingPlan;
      ghost var plans := Each(bindings, BindingPlan);
      ids, failure := map[], None;
      PassStarts(records, Binding, plans, env, judge);
      for i := 0 to |bindings|
        invariant failure.None?
        invariant Phase(records, ids, None) == Pass(old(records), Binding, plans, env, judge, i)
      {
        var binding := bindings[i];
        PassStep(old(records), Binding, plans, env, judge, i);
        BindingAction(binding, env);
        if Text(binding.device) !in deviceIds {
          continue;
        }
        if Text(binding.intent) !in intentIds {
          return map[], Some(KeyError);
        }
        var refs := map[OfDevice := deviceIds[Text(binding.device)], OfIntent := intentIds[Text(binding.intent)]];
        var id;
        id, failure := GetOrCreate(Record(Binding, Text(binding.name), binding.attributes, refs));
        if failure.Some? {
          return map[], failure;
        }
        ids := ids[Text(binding.name) := id];
      }
    }

    /** A rule whose binding was skipped is skipped too; the result counts the others. */
    method SeedRuleSets(rules: seq<RuleSeed>, bindingIds: Ids, ghost env: Env)
      returns (created: nat, ghost ids: Ids, failure: Option<Failure>)
      requires Has(env, Binding, bindingIds)
      modifies this
      ensures Phase(records, ids, failure) == WholePass(old(records), RuleSet, Each(rules, RulePlan), env, judge)
      ensures failure.None? ==> created == BoundRules(rules, bindingIds)
    {
      hide Find;
      hide Pass;
      hide WholePass;
      hide ActionFor;
      hide RulePlan;
      ghost var plans := Each(rules, RulePlan);
      created, ids, failure := 0, map[], None;
      PassStarts(records, RuleSet, plans, env, judge);
      for i := 0 to |rules|
        invariant failure.None? && created == BoundRules(rules[..i], bindingIds)
        invariant Phase(records, ids, None) == Pass(old(records), RuleSet, plans, env, judge, i)
      {
        assert rules[..i + 1][..i] == rules[..i];
        var rule := rules[i];
        PassStep(old(records), RuleSet, plans, env, judge, i);
        RuleAction(rule, env);
        if Text(rule.binding) !in bindingIds {
          continue;
        }
        var refs := map[OfBinding := bindingIds[Text(rule.binding)]];
        var id;
        id, failure := GetOrCreate(Record(RuleSet, Text(rule.name), rule.attributes, refs));
        if failure.Some? {
          return created, map[], failure;
        }
        created := created + 1;
        ids := ids[Text(rule.name) := id];
      }
      assert rules[..|rules|] == rules;
    }

    /** Services, endpoints, intents, bindings, rules: the run of `Seeding` over these sections. */
    method PopulateBusinessIntent(seed: SeedData, deviceIds: Ids, ghost env: Env)
      returns (counts: Counts, failure: Option<Failure>)
      requires Has(env, Device, deviceIds)
      modifies this
      ensures var o := RunFrom(Outcome(old(records), env, None), seed, judge, Business());
              && records == o.store && failure == o.failure
              && (failure.None? ==> Tally(counts, o.env, seed))
    {
      hide WholePass;
      hide RunFrom;
      hide After;
      hide Business;
      BusinessSections();
      BusinessPlans(seed);
      hide Plans;
      hide Each;
      hide BoundRules;
      ghost var start := Outcome(records, env, None);
      AfterEnds(start, seed, judge);
      counts, failure := Counts(0, 0, 0, 0, 0), None;
      if seed.services == [] && seed.endpoints == [] && seed.intents == [] && seed.bindings == [] && seed.rules == [] {
        NothingToSeed(start, seed, judge);
        return;
      }
      counts, failure := SeedChain(seed, deviceIds, env);
    }

    method SeedChain(seed: SeedData, deviceIds: Ids, ghost env: Env) returns (counts: Counts, failure: Option<Failure>)
      requires Has(env, Device, deviceIds)
      modifies this
      ensures var o := RunFrom(Outcome(old(records), env, None), seed, judge, Business());
              && records == o.store && failure == o.failure
              && (failure.None? ==> Tally(counts, o.env, seed))
    {
      hide WholePass;
      hide RunFrom;
      hide After;
      hide Business;
      BusinessSections();
      BusinessPlans(seed);
      hide Plans;
      hide Each;
      hide BoundRules;
      ghost var start := Outcome(records, env, None);
      AfterEnds(start, seed, judge);
      hide Tally;
      counts := Counts(0, 0, 0, 0, 0);
      var serviceIds, endpointIds, intentIds, bindingIds;
      serviceIds, failure := SeedServices(seed.services, env);
      SectionDone(start, seed, judge, 0, records, serviceIds, failure);
      if failure.Some? { return; }
      ghost var env1 := env[Service := serviceIds];
      endpointIds, failure := SeedEndpoints(seed.endpoints, serviceIds, env1);
      SectionDone(start, seed, judge, 1, records, endpointIds, failure);
      if failure.Some? { return; }
      ghost var env2 := env1[Endpoint := endpointIds];
      intentIds, failure := SeedIntents(seed.intents, endpointIds, env2);
      SectionDone(start, seed, judge, 2, records, intentIds, failure);
      if failure.Some? { return; }
      var ruleCount;
      ghost var ruleIds;
      bindingIds, ruleCount, ruleIds, failure :=
        SeedRealization(seed, intentIds, deviceIds, start, env2[Intent := intentIds]);
      counts := Counts(|serviceIds|, |endpointIds|, |intentIds|, |bindingIds|, ruleCount);
      Tallies(env, serviceIds, endpointIds, intentIds, bindingIds, ruleIds, seed);
    }

    /** The last two sections, which realize the intents on devices. */
    method SeedRealization(seed: SeedData, intentIds: Ids, deviceIds: Ids, ghost start: Outcome, ghost env: Env)
      returns (bindingIds: Ids, ruleCount: nat, ghost ruleIds: Ids, failure: Option<Failure>)
      requires Has(env, Device, deviceIds) && Has(env, Intent, intentIds)
      requires |Business()| >= 3 && After(start, seed, judge, 3) == Outcome(records, env, None)
      modifies this
      ensures var o := RunFrom(start, seed, judge, Business());
              && records == o.store && failure == o.failure
              && (failure.None? ==>
                    && o.env == env[Binding := bindingIds][RuleSet := ruleIds]
                    && ruleCount == BoundRules(seed.rules, bindingIds))
    {
      hide WholePass;
      hide RunFrom;
      hide After;
      hide Business;
      BusinessSections();
      BusinessPlans(seed);
      hide Plans;
      hide Each;
      hide BoundRules;
      AfterEnds(start, seed, judge);
      bindingIds, failure := SeedBindings(seed.bindings, intentIds, deviceIds, env);
      SectionDone(start, seed, judge, 3, records, bindingIds, failure);
      ruleCount := 0;
      ruleIds := map[];
      if failure.Some? { return; }
      ruleCount, ruleIds, failure := SeedRuleSets(seed.rules, bindingIds, env[Binding := bindingIds]);
      SectionDone(start, seed, judge, 4, records, ruleIds, failure);
    }
  }

  /** The counts reported of a run. */
  predicate Tally(counts: Counts, env: Env, seed: SeedData) {
    && Service in env && Endpoint in env && Intent in env && Binding in env
    && counts == Counts(|env[Service]|, |env[Endpoint]|, |env[Intent]|, |env[Binding]|,
                        BoundRules(seed.rules, env[Binding]))
  }

  lemma Tallies(env: Env, services: Ids, endpoints: Ids, intents: Ids, bindings: Ids, rules: Ids, seed: SeedData)
    ensures Tally(Counts(|services|, |endpoints|, |intents|, |bindings|, BoundRules(seed.rules, bindings)),
                  env[Service := services][Endpoint := endpoints][Intent := intents][Binding := bindings]
                     [RuleSet := rules],
                  seed)
  {
  }

  lemma BusinessSections()
    ensures |Business()| == 5
    ensures Business()[0] == Service && Business()[1] == Endpoint && Business()[2] == Intent
    ensures Business()[3] == Binding && Business()[4] == RuleSet
  {
  }

  lemma BusinessPlans(seed: SeedData)
    ensures Plans(Service, seed) == Each(seed.services, ServicePlan)
    ensures Plans(Endpoint, seed) == Each(seed.endpoints, EndpointPlan)
    ensures Plans(Intent, seed) == Each(seed.intents, IntentPlan)
    ensures Plans(Binding, seed) == Each(seed.bindings, BindingPlan)
    ensures Plans(RuleSet, seed) == Each(seed.rules, RulePlan)
  {
  }

  /** The run after the first `n` sections of business intent. */
  function After(o: Outcome, seed: SeedData, judge: Record -> Verdict, n: nat): Outcome
    requires n <= |Business()|
  {
    RunFrom(o, seed, judge, Business()[..n])
  }

  lemma AfterEnds(o: Outcome, seed: SeedData, judge: Record -> Verdict)
    ensures After(o, seed, judge, 0) == o
    ensures After(o, seed, judge, |Business()|) == RunFrom(o, seed, judge, Business())
  {
    assert Business()[..|Business()|] == Business();
  }

  /** One more section of the run; when it fails, the run ends there. */
  lemma SectionDone(start: Outcome, seed: SeedData, judge: Record -> Verdict, n: nat,
                    store: Store, ids: Ids, failure: Option<Failure>)
    requires n < |Business()| && After(start, seed, judge, n).failure.None?
    requires var o := After(start, seed, judge, n);
             Phase(store, ids, failure)
             == WholePass(o.store, Business()[n], Plans(Business()[n], seed), o.env, judge)
    ensures var o := After(start, seed, judge, n);
            var after := Outcome(store, if failure.None? then o.env[Business()[n] := ids] else o.env, failure);
            && After(start, seed, judge, n + 1) == after
            && (failure.Some? ==> RunFrom(start, seed, judge, Business()) == after)
  {
    hide Plans;
    hide Fold;
    hide Business;
    assert Business()[..n + 1][..n] == Business()[..n];
    if failure.Some? { RunStops(start, seed, judge, Business()[..n + 1], Business()); }
  }

  lemma {:induction false} RunStops(
      start: Outcome, seed: SeedData, judge: Record -> Verdict, done: seq<Kind>, kinds: seq<Kind>)
    requires done <= kinds && RunFrom(start, seed, judge, done).failure.Some?
    ensures RunFrom(start, seed, judge, kinds) == RunFrom(start, seed, judge, done)
    decreases |kinds|
  {
    if |done| < |kinds| {
      RunStops(start, seed, judge, done, kinds[..|kinds| - 1]);
    } else {
      assert done == kinds;
    }
  }

  lemma NothingToSeed(start: Outcome, seed: SeedData, judge: Record -> Verdict)
    requires start.failure.None?
    requires seed.services == [] && seed.endpoints == [] && seed.intents == []
    requires seed.bindings == [] && seed.rules == []
    ensures var o := RunFrom(start, seed, judge, Business());
            && o.store == start.store && o.failure.None? && Tally(Counts(0, 0, 0, 0, 0), o.env, seed)
  {
    hide Plans;
    hide RunFrom;
    hide After;
    hide Business;
    BusinessSections();
    AfterEnds(start, seed, judge);
    EmptySection(start, seed, judge, 0);
    EmptySection(start, seed, judge, 1);
    EmptySection(start, seed, judge, 2);
    EmptySection(start, seed, judge, 3);
    EmptySection(start, seed, judge, 4);
  }

  lemma EmptySection(start: Outcome, seed: SeedData, judge: Record -> Verdict, n: nat)
    requires n < |Business()| && After(start, seed, judge, n).failure.None?
    requires seed.services == [] && seed.endpoints == [] && seed.intents == []
    requires seed.bindings == [] && seed.rules == []
    ensures var o := After(start, seed, judge, n);
            After(start, seed, judge, n + 1) == o.(env := o.env[Business()[n] := map[]])
  {
    hide After;
    BusinessSections();
    assert Plans(Business()[n], seed) == [];
    var o := After(start, seed, judge, n);
    SectionDone(start, seed, judge, n, o.store, map[], None);
  }

  predicate Has(env: Env, kind: Kind, ids: Ids) {
    kind in env && env[kind] == ids
  }

  /** The rules whose binding was seeded. */
  function BoundRules(rules: seq<RuleSeed>, bindingIds: Ids): nat {
    if rules == [] then 0
    else BoundRules(rules[..|rules| - 1], bindingIds)
         + (if Text(rules[|rules| - 1].binding) in bindingIds then 1 else 0)
  }

  lemma FoundStays(s: Store, t: Store, ids: Ids, kind: Kind)
    requires s <= t && forall k | k in ids :: Find(s, kind, k) == Some(ids[k])
    ensures forall k | k in ids :: Find(t, kind, k) == Some(ids[k])
  {
    hide Find;
    forall k | k in ids ensures Find(t, kind, k) == Some(ids[k]) {
      FindGrows(s, t, kind, k);
    }
  }

  lemma {:induction false} AddressCount(interfaces: seq<InterfaceSeed>, i: nat)
    requires i <= |interfaces|
    ensures AddressPlans(interfaces[..i]) <= AddressPlans(interfaces)
    ensures i == 0 ==> AddressPlans(interfaces[..i]) == []
    ensures i == |interfaces| ==> AddressPlans(interfaces[..i]) == AddressPlans(interfaces)
    decreases |interfaces| - i
  {
    if i < |interfaces| {
      assert interfaces[..i + 1][..i] == interfaces[..i];
      AddressCount(interfaces, i + 1);
    } else {
      assert interfaces[..i] == interfaces;
    }
  }

  lemma AddressPlanAt(interfaces: seq<InterfaceSeed>, i: nat, env: Env, namespaceId: nat)
    requires i < |interfaces| && IdOf(env, Namespace, Text(DEFAULT_NAMESPACE)) == Some(namespaceId)
    ensures var n, plans := |AddressPlans(interfaces[..i])|, AddressPlans(interfaces);
            if HasAddress(interfaces[i]) then
              var ip := Text(interfaces[i].ipAddress.value);
              && |AddressPlans(interfaces[..i + 1])| == n + 1 && n < |plans|
              && ActionFor(IpAddress, plans[n], env)
                 == Upsert(
                      ip, Record(IpAddress, ip, interfaces[i].ipAttributes, map[InNamespace := namespaceId]), false)
            else AddressPlans(interfaces[..i + 1]) == AddressPlans(interfaces[..i])
  {
    assert interfaces[..i + 1][..i] == interfaces[..i];
    AddressCount(interfaces, i + 1);
    ResolveOne(Want(InNamespace, Text(DEFAULT_NAMESPACE), Must), env);
  }
}
