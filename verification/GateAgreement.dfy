/** What the compilers emit, what the source-of-truth check accepts, and what the gate lets through. */
module GateAgreement {
  import opened Json
  import opened InfrahubGraph
  import opened SrlinuxTransforms
  import opened HygieneChecker
  import opened InterfaceConsistency
  import opened CompilerAgreement

  // --- BGP ----------------------------------------------------------------------------------

  lemma {:induction false} CompiledNeighborsPassIff(ns: seq<Json>, validIp: Json -> bool)
    ensures NeighborsVerdict(ns, validIp) == Pass
            <==> forall i | 0 <= i < |ns| :: NeighborVerdict(ns[i], validIp) == Pass
    ensures (forall i | 0 <= i < |ns| :: ns[i].Obj?) ==> NeighborsVerdict(ns, validIp) != Raise
    decreases |ns|
  {
    if ns != [] {
      CompiledNeighborsPassIff(ns[1..], validIp);
      assert forall i | 0 < i < |ns| :: ns[i] == ns[1..][i - 1];
    }
  }

  function PeerAddress(session: SessionNode): string {
    StripCidr(Or(session.remoteIp, ""))
  }

  lemma OneNeighborPassesIff(session: SessionNode, validIp: Json -> bool)
    ensures NeighborVerdict(Neighbor(session), validIp) == Pass <==> validIp(Str(PeerAddress(session)))
    ensures Neighbor(session).Obj?
  {
  }

  lemma GateOnBgp(asn: int, routerId: string, neighbors: seq<Json>, validIp: Json -> bool)
    ensures BgpGate(Some(BgpConfig(asn, routerId, neighbors)), validIp)
            == if 1 <= asn <= MAX_ASN then NeighborsVerdict(neighbors, validIp) else Fail
  {
    hide NeighborsVerdict;
    var bgp := BgpProtocol(asn, routerId, neighbors);
    var protocols := Obj(map["bgp" := bgp]);
    var instance := Obj(map["name" := Str("default"), "protocols" := protocols]);
    var config := BgpConfig(asn, routerId, neighbors);
    assert config.fields["network-instance"] == Arr([instance]);
    assert [instance][1..] == [];
    GateOnProtocol(asn, routerId, neighbors, validIp);
    assert instance.fields["protocols"] == protocols && protocols.fields["bgp"] == bgp;
    hide BgpVerdict;
    assert bgp.fields != map[] by { assert "group" in bgp.fields; }
    assert InstanceVerdict(instance, validIp) == BgpVerdict(bgp.fields, validIp);
    hide InstanceVerdict;
    assert InstancesVerdict([instance], validIp) == InstanceVerdict(instance, validIp);
  }

  lemma GateOnProtocol(asn: int, routerId: string, neighbors: seq<Json>, validIp: Json -> bool)
    ensures BgpVerdict(BgpProtocol(asn, routerId, neighbors).fields, validIp)
            == if 1 <= asn <= MAX_ASN then NeighborsVerdict(neighbors, validIp) else Fail
  {
    hide NeighborsVerdict;
    var bgp := BgpProtocol(asn, routerId, neighbors).fields;
    assert bgp["autonomous-system"] == Num(asn as real) && bgp["neighbor"] == Arr(neighbors);
    assert bgp["group"].Arr? && bgp["group"].items != [];
  }

  /** For a device that exists the gate passes the compiled BGP configuration exactly when the AS
      number is in 1..4294967295 and every peer address without its prefix length is valid; otherwise
      it refuses it, and never raises. */
  lemma CompiledBgpMeetsGateIff(
      devices: seq<DeviceNode>, interfaces: seq<InterfaceNode>, sessions: seq<SessionNode>, validIp: Json -> bool)
    requires devices != []
    ensures var v := BgpGate(Some(CompiledBgp(devices, interfaces, sessions)), validIp);
            && v != Raise
            && (v == Pass <==>
                  && 1 <= Or(devices[0].asn, 0) <= 4294967295
                  && forall i | 0 <= i < |sessions| :: validIp(Str(PeerAddress(sessions[i]))))
  {
    hide BgpConfig;
    hide BgpGate;
    var asn, ns := Or(devices[0].asn, 0), Neighbors(sessions);
    GateOnBgp(asn, RouterId(interfaces), ns, validIp);
    NeighborsPointwise(sessions);
    CompiledNeighborsPassIff(ns, validIp);
    forall i | 0 <= i < |sessions|
      ensures NeighborVerdict(ns[i], validIp) == Pass <==> validIp(Str(PeerAddress(sessions[i])))
      ensures ns[i].Obj?
    {
      OneNeighborPassesIff(sessions[i], validIp);
    }
    hide NeighborVerdict;
    hide PeerAddress;
  }

  // --- interfaces ---------------------------------------------------------------------------

  /** The address that the entry would carry, if it carries one, is valid. */
  predicate AddressOk(node: InterfaceNode, validNetwork: Json -> bool) {
    node.addresses != [] && node.addresses[0] != "" ==> validNetwork(Str(node.addresses[0]))
  }

  lemma OneInterfacePassesIff(node: InterfaceNode, validNetwork: Json -> bool)
    ensures InterfaceVerdict(CompiledInterface(node), validNetwork)
            == if GoodPrefix(node.name) && AddressOk(node, validNetwork) then Pass else Fail
  {
    hide GoodPrefix;
    var sub := Subinterface(Or(node.description, ""), FirstAddress(node));
    var entry := CompiledInterface(node);
    assert entry.fields["name"] == Str(node.name) && entry.fields["subinterface"] == Arr([Obj(sub)]);
    assert [Obj(sub)][1..] == [];
    OneSubinterface(Or(node.description, ""), FirstAddress(node), validNetwork);
    hide SubinterfaceVerdict;
    hide Subinterface;
    hide InterfaceEntry;
    assert SubinterfacesVerdict([Obj(sub)], validNetwork) == SubinterfaceVerdict(Obj(sub), validNetwork);
  }

  lemma OneSubinterface(description: string, address: Option<string>, validNetwork: Json -> bool)
    ensures SubinterfaceVerdict(Obj(Subinterface(description, address)), validNetwork)
            == if address.Some? && address.value != "" && !validNetwork(Str(address.value)) then Fail else Pass
  {
    var sub := Subinterface(description, address);
    if address.Some? && address.value != "" {
      var one := Obj(map["ip-prefix" := Str(address.value)]);
      assert sub["ipv4"] == Ipv4(address.value) && Ipv4(address.value).fields["address"] == Arr([one]);
      assert [one][1..] == [];
      assert AddressesVerdict([one], validNetwork) == AddressVerdict(one, validNetwork);
    } else {
      assert "ipv4" !in sub;
    }
  }

  lemma {:induction false} VerdictSnoc(interfaces: seq<Json>, last: Json, validNetwork: Json -> bool)
    ensures InterfacesVerdict(interfaces + [last], validNetwork)
            == (var v := InterfacesVerdict(interfaces, validNetwork);
                if v == Pass then InterfaceVerdict(last, validNetwork) else v)
    decreases |interfaces|
  {
    hide InterfaceVerdict;
    if interfaces == [] {
      assert interfaces + [last] == [last] && [last][1..] == [];
      assert InterfacesVerdict([last][1..], validNetwork) == Pass;
    } else {
      assert (interfaces + [last])[1..] == interfaces[1..] + [last];
      VerdictSnoc(interfaces[1..], last, validNetwork);
    }
  }

  predicate NodeOk(node: InterfaceNode, validNetwork: Json -> bool) {
    Configured(node) ==> GoodPrefix(node.name) && AddressOk(node, validNetwork)
  }

  predicate AllOk(nodes: seq<InterfaceNode>, validNetwork: Json -> bool) {
    forall i | 0 <= i < |nodes| :: NodeOk(nodes[i], validNetwork)
  }

  lemma AllOkSnoc(nodes: seq<InterfaceNode>, validNetwork: Json -> bool)
    requires nodes != []
    ensures AllOk(nodes, validNetwork)
            <==> AllOk(nodes[..|nodes| - 1], validNetwork) && NodeOk(nodes[|nodes| - 1], validNetwork)
  {
    hide NodeOk;
  }

  lemma {:induction false} CompiledInterfacesPassIff(nodes: seq<InterfaceNode>, validNetwork: Json -> bool)
    ensures InterfacesVerdict(CompiledInterfaces(nodes), validNetwork)
            == if AllOk(nodes, validNetwork) then Pass else Fail
    decreases |nodes|
  {
    if nodes != [] {
      var n := |nodes| - 1;
      CompiledInterfacesPassIff(nodes[..n], validNetwork);
      OneInterfacePassesIff(nodes[n], validNetwork);
      AllOkSnoc(nodes, validNetwork);
      hide CompiledInterface;
      hide InterfaceVerdict;
      hide Configured;
      hide GoodPrefix;
      hide AddressOk;
      hide AllOk;
      if Configured(nodes[n]) {
        VerdictSnoc(CompiledInterfaces(nodes[..n]), CompiledInterface(nodes[n]), validNetwork);
      } else {
        assert CompiledInterfaces(nodes[..n]) + [] == CompiledInterfaces(nodes[..n]);
      }
    }
  }

  function NodesOf(cs: seq<CheckedNode>): seq<InterfaceNode> {
    seq(|cs|, i requires 0 <= i < |cs| => cs[i].node)
  }

  predicate Reported(c: CheckedNode, finding: Finding) {
    Finds(ErrorsOf(c), finding)
  }

  predicate Flagged(cs: seq<CheckedNode>, finding: Finding) {
    Finds(AllErrors(cs), finding)
  }

  /** The gate and the check expect the same names. */
  lemma SameNames(name: string)
    ensures ExpectedName(name) <==> GoodPrefix(name)
  {
    var prefixes := ["ethernet-", "system", "loopback", "mgmt"];
    assert prefixes[0] in prefixes && prefixes[1] in prefixes && prefixes[2] in prefixes && prefixes[3] in prefixes;
  }

  lemma ReportedIff(c: CheckedNode)
    ensures Reported(c, UnexpectedName) <==> c.node.name != "" && !GoodPrefix(c.node.name)
    ensures Reported(c, LoopbackWithoutAddress) <==> IsLoopback(c.node) && c.node.addresses == []
  {
    SameNames(c.node.name);
    hide GoodPrefix;
    hide ExpectedName;
    var es := ErrorsOf(c);
    if c.node.name != "" && !GoodPrefix(c.node.name) {
      assert es[0].finding == UnexpectedName;
    }
    if IsLoopback(c.node) && c.node.addresses == [] {
      assert es[|es| - 1].finding == LoopbackWithoutAddress;
    }
  }

  lemma {:induction false} FlaggedIff(cs: seq<CheckedNode>, finding: Finding)
    ensures Flagged(cs, finding) <==> exists i | 0 <= i < |cs| :: Reported(cs[i], finding)
    decreases |cs|
  {
    if cs != [] {
      var n := |cs| - 1;
      FlaggedIff(cs[..n], finding);
      FindsConcat(AllErrors(cs[..n]), ErrorsOf(cs[n]), finding);
      hide ErrorsOf;
      hide Finds;
      assert forall i | 0 <= i < n :: cs[i] == cs[..n][i];
    }
  }

  /** The gate passes the compiled interfaces exactly when every interface that is compiled has a
      name, the check reports no name error for it, and the address it carries is valid; otherwise it
      refuses them, and never raises. */
  lemma CompiledInterfacesMeetGateIff(cs: seq<CheckedNode>, validNetwork: Json -> bool)
    ensures var v := InterfaceGate(Some(InterfaceConfig(CompiledInterfaces(NodesOf(cs)))), validNetwork);
            && v != Raise
            && (v == Pass <==>
                  forall i | 0 <= i < |cs| && Configured(cs[i].node) ::
                    && cs[i].node.name != "" && !Reported(cs[i], UnexpectedName)
                    && AddressOk(cs[i].node, validNetwork))
  {
    hide Configured;
    hide AddressOk;
    var nodes := NodesOf(cs);
    var compiled := CompiledInterfaces(nodes);
    CompiledInterfacesPassIff(nodes, validNetwork);
    assert InterfaceConfig(compiled).fields["interface"] == Arr(compiled);
    hide InterfacesVerdict;
    hide CompiledInterfaces;
    forall i | 0 <= i < |cs|
      ensures NodeOk(nodes[i], validNetwork) <==>
              (Configured(cs[i].node) ==>
                 && cs[i].node.name != "" && !Reported(cs[i], UnexpectedName) && AddressOk(cs[i].node, validNetwork))
    {
      ReportedIff(cs[i]);
    }
    hide Reported;
    hide NodeOk;
    assert forall i | 0 <= i < |cs| :: nodes[i] == cs[i].node;
  }

  /** So a source of truth with named interfaces, valid addresses and no name error in the check is
      always let through. */
  lemma CleanCheckMeetsGate(cs: seq<CheckedNode>, validNetwork: Json -> bool)
    requires forall i | 0 <= i < |cs| :: cs[i].node.name != "" && AddressOk(cs[i].node, validNetwork)
    requires !Flagged(cs, UnexpectedName)
    ensures InterfaceGate(Some(InterfaceConfig(CompiledInterfaces(NodesOf(cs)))), validNetwork) == Pass
  {
    FlaggedIff(cs, UnexpectedName);
    CompiledInterfacesMeetGateIff(cs, validNetwork);
    hide InterfaceGate;
    hide AddressOk;
    hide Reported;
  }

  /** And when the check reports no loopback without an address, one loopback is enough for a deciding
      address: what is left of the agreement on the router identifier is text before its slash. */
  lemma CleanCheckDecides(cs: seq<CheckedNode>)
    requires !Flagged(cs, LoopbackWithoutAddress) && exists i | 0 <= i < |cs| :: IsLoopback(cs[i].node)
    ensures DecidingAddress(NodesOf(cs)).Some?
  {
    FlaggedIff(cs, LoopbackWithoutAddress);
    var i :| 0 <= i < |cs| && IsLoopback(cs[i].node);
    ReportedIff(cs[i]);
    DecidedBy(NodesOf(cs), i);
  }

  lemma {:induction false} DecidedBy(nodes: seq<InterfaceNode>, i: nat)
    requires i < |nodes| && IsLoopback(nodes[i]) && nodes[i].addresses != []
    ensures DecidingAddress(nodes).Some?
    decreases |nodes|
  {
    if i > 0 { DecidedBy(nodes[1..], i - 1); }
  }
}
