/** The two configuration compilers, written apart, against each other. */
module CompilerAgreement {
  import opened Json
  import opened InfrahubGraph
  import Transforms = SrlinuxTransforms
  import Client = InfrahubClient

  function ParsedAll(nodes: seq<InterfaceNode>): seq<Client.InterfaceData> {
    seq(|nodes|, i requires 0 <= i < |nodes| => Client.ParsedInterface(nodes[i]))
  }

  function RenderEach(entries: seq<Client.InterfaceEntry>): seq<Json> {
    seq(|entries|, i requires 0 <= i < |entries| => Client.RenderInterface(entries[i]))
  }

  lemma {:induction false} VarsSnoc(interfaces: seq<Client.InterfaceData>, i: Client.InterfaceData)
    ensures Client.ToInterfaceTemplateVars(interfaces + [i])
            == Client.ToInterfaceTemplateVars(interfaces) + Client.ToInterfaceTemplateVars([i])
    decreases |interfaces|
  {
    if interfaces == [] {
      assert interfaces + [i] == [i];
    } else {
      assert (interfaces + [i])[1..] == interfaces[1..] + [i];
      VarsSnoc(interfaces[1..], i);
    }
  }

  lemma OneInterface(node: InterfaceNode)
    ensures RenderEach(Client.ToInterfaceTemplateVars([Client.ParsedInterface(node)]))
            == if Transforms.Configured(node) then [Transforms.CompiledInterface(node)] else []
  {
    var parsed := Client.ParsedInterface(node);
    assert [parsed][1..] == [];
    assert Client.ToInterfaceTemplateVars([parsed][1..]) == [];
    if Transforms.Configured(node) {
      var entry := Client.InterfaceEntry(
        parsed.name, parsed.description, parsed.enabled, parsed.mtu, 0, parsed.ipAddress);
      assert Client.ToInterfaceTemplateVars([parsed]) == [entry];
      SameInterface(node, entry);
    }
  }

  lemma SameInterface(node: InterfaceNode, entry: Client.InterfaceEntry)
    requires entry == Client.InterfaceEntry(
               node.name, Or(node.description, ""), true, MtuOf(node.mtu), 0, FirstAddress(node))
    ensures Client.RenderInterface(entry) == Transforms.CompiledInterface(node)
  {
    var plain: Doc := map["index" := Num(0.0), "description" := Str(entry.description)];
    if entry.ipAddress.Some? {
      var ipv4 := Transforms.Ipv4(entry.ipAddress.value);
      assert plain + map["ipv4" := ipv4] == plain["ipv4" := ipv4];
    }
  }

  /** For every answer, the interface transform and the client with its template give the same
      entries in the same order. */
  lemma {:induction false} InterfacesAgree(nodes: seq<InterfaceNode>)
    ensures RenderEach(Client.ToInterfaceTemplateVars(ParsedAll(nodes))) == Transforms.CompiledInterfaces(nodes)
    decreases |nodes|
  {
    if nodes != [] {
      var n := |nodes| - 1;
      InterfacesAgree(nodes[..n]);
      assert ParsedAll(nodes) == ParsedAll(nodes[..n]) + [Client.ParsedInterface(nodes[n])];
      VarsSnoc(ParsedAll(nodes[..n]), Client.ParsedInterface(nodes[n]));
      OneInterface(nodes[n]);
      hide Client.RenderInterface;
      hide Transforms.CompiledInterface;
      hide Client.ToInterfaceTemplateVars;
      var a := Client.ToInterfaceTemplateVars(ParsedAll(nodes[..n]));
      var b := Client.ToInterfaceTemplateVars([Client.ParsedInterface(nodes[n])]);
      assert RenderEach(a + b) == RenderEach(a) + RenderEach(b);
    }
  }

  lemma InterfaceConfigsAgree(nodes: seq<InterfaceNode>)
    ensures Client.RenderInterfaces(Client.ToInterfaceTemplateVars(ParsedAll(nodes)))
            == Transforms.InterfaceConfig(Transforms.CompiledInterfaces(nodes))
  {
    InterfacesAgree(nodes);
  }

  /** The address entry that decides the router identifier: the first of the first loopback that has any. */
  function DecidingAddress(nodes: seq<InterfaceNode>): Option<string> {
    if nodes == [] then None
    else if IsLoopback(nodes[0]) && nodes[0].addresses != [] then Some(nodes[0].addresses[0])
    else DecidingAddress(nodes[1..])
  }

  lemma {:induction false} TransformDecides(nodes: seq<InterfaceNode>)
    ensures Transforms.RouterId(nodes)
            == if DecidingAddress(nodes).Some? then StripCidr(DecidingAddress(nodes).value) else ""
    ensures DecidingAddress(Loopbacks(nodes)) == DecidingAddress(nodes)
    decreases |nodes|
  {
    if nodes != [] {
      TransformDecides(nodes[1..]);
      var head := if IsLoopback(nodes[0]) then [nodes[0]] else [];
      assert (head + Loopbacks(nodes[1..]))[|head|..] == Loopbacks(nodes[1..]);
    }
  }

  lemma {:induction false} ClientDecides(nodes: seq<InterfaceNode>)
    ensures DecidingAddress(nodes).None? ==> Client.DerivedRouterId(ParsedAll(nodes)) == ""
    ensures DecidingAddress(nodes).Some? && DecidingAddress(nodes).value != "" ==>
              Client.DerivedRouterId(ParsedAll(nodes)) == StripCidr(DecidingAddress(nodes).value)
    decreases |nodes|
  {
    if nodes != [] {
      ClientDecides(nodes[1..]);
      assert ParsedAll(nodes)[1..] == ParsedAll(nodes[1..]);
      if nodes[0].addresses != [] { StripCidrMeans(nodes[0].addresses[0]); }
    }
  }

  lemma {:induction false} NeighborsPointwise(sessions: seq<SessionNode>)
    ensures |Transforms.Neighbors(sessions)| == |sessions|
    ensures forall i | 0 <= i < |sessions| :: Transforms.Neighbors(sessions)[i] == Transforms.Neighbor(sessions[i])
    decreases |sessions|
  {
    if sessions != [] { NeighborsPointwise(sessions[..|sessions| - 1]); }
  }

  lemma OneNeighbor(node: SessionNode)
    ensures var s := Client.ParsedSession(node);
            Client.RenderSession(
              Client.BgpTemplateSession(StripCidr(s.remoteIp), s.remoteAsn, s.peerGroup, s.description))
            == Transforms.Neighbor(node)
  {
  }

  function RenderedNeighbors(v: Client.BgpTemplateVars): seq<Json> {
    seq(|v.bgpSessions|, i requires 0 <= i < |v.bgpSessions| => Client.RenderSession(v.bgpSessions[i]))
  }

  /** Whatever else differs, the neighbours are the same, in the same order. */
  lemma NeighborsAgree(devices: seq<DeviceNode>, interfaces: seq<InterfaceNode>, sessions: seq<SessionNode>)
    ensures var r := Client.Parsed(devices, interfaces, sessions);
            r.Ok? ==> RenderedNeighbors(Client.ToBgpTemplateVars(r.value)) == Transforms.Neighbors(sessions)
  {
    hide Client.RenderSession;
    hide Client.DerivedRouterId;
    hide Transforms.Neighbor;
    NeighborsPointwise(sessions);
    forall i | 0 <= i < |sessions| {
      OneNeighbor(sessions[i]);
    }
  }

  lemma RenderedBgp(v: Client.BgpTemplateVars)
    requires v.networkInstance == "default" && v.groupName == "underlay"
    requires v.exportPolicy == "export-all" && v.importPolicy == "import-all"
    ensures Client.RenderBgp(v) == Transforms.BgpConfig(v.localAsn, v.routerId, RenderedNeighbors(v))
  {
  }

  lemma RouterIdOfConfig(asn: int, a: string, b: string, ns: seq<Json>, ms: seq<Json>)
    requires Transforms.BgpConfig(asn, a, ns) == Transforms.BgpConfig(asn, b, ms)
    ensures a == b
  {
    var p, q := Transforms.BgpProtocol(asn, a, ns), Transforms.BgpProtocol(asn, b, ms);
    var x, y := Obj(map["bgp" := p]), Obj(map["bgp" := q]);
    var top, top' := Transforms.BgpConfig(asn, a, ns), Transforms.BgpConfig(asn, b, ms);
    assert top.fields["network-instance"] == top'.fields["network-instance"];
    var i, i' := top.fields["network-instance"].items[0], top'.fields["network-instance"].items[0];
    assert i.fields["protocols"] == x && i'.fields["protocols"] == y;
    assert x.fields["bgp"] == p && y.fields["bgp"] == q;
    assert p.fields["router-id"] == Str(a) && q.fields["router-id"] == Str(b);
  }

  /** The transform asks for the loopbacks only and the client for every interface. Their BGP
      configurations are equal exactly when the device exists, some loopback has an address entry, and
      the first address of the first such loopback has text before its slash. */
  lemma BgpConfigsAgreeIff(
      devices: seq<DeviceNode>, asked: seq<InterfaceNode>, all: seq<InterfaceNode>, sessions: seq<SessionNode>)
    requires Loopbacks(asked) == Loopbacks(all)
    ensures var r := Client.Parsed(devices, all, sessions);
            (r.Ok? && Client.RenderBgp(Client.ToBgpTemplateVars(r.value))
                      == Transforms.CompiledBgp(devices, asked, sessions))
            <==> devices != [] && DecidingAddress(all).Some? && StripCidr(DecidingAddress(all).value) != ""
  {
    TransformDecides(asked);
    TransformDecides(all);
    ClientDecides(all);
    NeighborsAgree(devices, all, sessions);
    var r := Client.Parsed(devices, all, sessions);
    if r.Ok? {
      var v := Client.ToBgpTemplateVars(r.value);
      RenderedBgp(v);
      var routerId := Transforms.RouterId(asked);
      if Client.RenderBgp(v) == Transforms.CompiledBgp(devices, asked, sessions) {
        RouterIdOfConfig(v.localAsn, v.routerId, routerId, RenderedNeighbors(v), Transforms.Neighbors(sessions));
      }
    }
  }

  lemma {:induction false} SplitAtSlash(a: string, b: string)
    requires '/' !in a
    ensures Split(a + "/" + b, '/')[0] == a
    decreases |a|
  {
    var s := a + "/" + b;
    if a == "" {
      assert s[0] == '/';
    } else {
      assert s[0] == a[0] && s[1..] == a[1..] + "/" + b;
      SplitAtSlash(a[1..], b);
      assert [a[0]] + a[1..] == a;
    }
  }

  function Loopback(address: string): InterfaceNode {
    InterfaceNode("lo0", None, None, Some("loopback"), [address])
  }

  /** An answer on which the compilers part: the first address is empty. The transform emits an empty
      router identifier where the client goes on to the next loopback. */
  lemma RouterIdsDiffer(device: DeviceNode)
    ensures var nodes := [Loopback(""), Loopback("10.0.0.1/32")];
            var r := Client.Parsed([device], nodes, []);
            && Transforms.RouterId(nodes) == "" && r.Ok? && r.value.device.routerId == "10.0.0.1"
            && Client.RenderBgp(Client.ToBgpTemplateVars(r.value)) != Transforms.CompiledBgp([device], nodes, [])
  {
    hide Client.RenderBgp;
    hide Transforms.BgpConfig;
    hide Split;
    hide SplitOnce;
    var nodes := [Loopback(""), Loopback("10.0.0.1/32")];
    SplitAtSlash("10.0.0.1", "32");
    assert "10.0.0.1" + "/" + "32" == "10.0.0.1/32";
    var parsed := ParsedAll(nodes);
    assert parsed[1..] == [Client.ParsedInterface(nodes[1])];
    assert Client.DerivedRouterId(parsed) == Client.DerivedRouterId(parsed[1..]) == "10.0.0.1";
    TransformDecides(nodes);
    BgpConfigsAgreeIff([device], nodes, nodes, []);
  }

  /** Another one: the address begins with its slash. The transform emits an empty router identifier again,
      and the client raises. */
  lemma RouterIdMissing(device: DeviceNode)
    ensures var nodes := [Loopback("/32")];
            Transforms.RouterId(nodes) == "" && Client.Parsed([device], nodes, []) == Client.Err(Client.NoRouterId)
  {
    hide Split;
    hide SplitOnce;
    var nodes := [Loopback("/32")];
    SplitAtSlash("", "32");
    assert "" + "/" + "32" == "/32";
    StripCidrMeans("/32");
    TransformDecides(nodes);
    ClientDecides(nodes);
  }

  // --- what is compiled ---------------------------------------------------------------------

  function HowMany(nodes: seq<InterfaceNode>): nat {
    if nodes == [] then 0
    else HowMany(nodes[..|nodes| - 1])
         + if nodes[|nodes| - 1].role in {Some("fabric"), Some("loopback")} then 1 else 0
  }

  /** There is one entry for each fabric or loopback interface, in the order of the answer, and no other. */
  lemma {:induction false} CompiledInOrder(nodes: seq<InterfaceNode>, i: nat)
    requires i < |nodes|
    ensures |Transforms.CompiledInterfaces(nodes)| == HowMany(nodes) && HowMany(nodes[..i]) <= HowMany(nodes)
    ensures nodes[i].role in {Some("fabric"), Some("loopback")} ==>
              && HowMany(nodes[..i]) < HowMany(nodes)
              && Transforms.CompiledInterfaces(nodes)[HowMany(nodes[..i])] == Transforms.CompiledInterface(nodes[i])
    decreases |nodes|
  {
    hide Transforms.CompiledInterface;
    var n := |nodes| - 1;
    if n > 0 { CompiledInOrder(nodes[..n], if i < n then i else 0); }
    if i < n { assert nodes[..n][..i] == nodes[..i]; }
  }

  /** What an entry says of its interface: with the default MTU of 9214 when the answer has none or zero,
      and with an address exactly when the first one that was answered is not empty. */
  lemma CompiledReads(node: InterfaceNode)
    ensures var entry := Transforms.CompiledInterface(node);
            && entry.Obj? && entry.fields.Keys == {"name", "description", "admin-state", "mtu", "subinterface"}
            && entry.fields["name"] == Str(node.name) && entry.fields["admin-state"] == Str("enable")
            && entry.fields["mtu"] ==
               Num((if node.mtu == None || node.mtu == Some(0) then 9214 else node.mtu.value) as real)
            && entry.fields["subinterface"].Arr? && |entry.fields["subinterface"].items| == 1
            && var sub := entry.fields["subinterface"].items[0];
               && sub.Obj? && "index" in sub.fields && sub.fields["index"] == Num(0.0)
               && ("ipv4" in sub.fields <==> node.addresses != [] && node.addresses[0] != "")
               && ("ipv4" in sub.fields ==>
                     Lookup(sub, ["ipv4", "address"]) == Some(Arr([Obj(map["ip-prefix" := Str(node.addresses[0])])])))
  {
    var description := Or(node.description, "");
    var sub := Transforms.Subinterface(description, FirstAddress(node));
    assert Transforms.CompiledInterface(node).fields["mtu"] == Num(MtuOf(node.mtu) as real);
    if node.addresses != [] && node.addresses[0] != "" {
      assert sub["ipv4"] == Transforms.Ipv4(node.addresses[0]);
      AddressPath(sub, Transforms.Ipv4(node.addresses[0]));
    }
  }

  lemma AddressPath(sub: Doc, ipv4: Json)
    requires "ipv4" in sub && sub["ipv4"] == ipv4 && ipv4.Obj? && "address" in ipv4.fields
    ensures Lookup(Obj(sub), ["ipv4", "address"]) == Some(ipv4.fields["address"])
  {
    var path := ["ipv4", "address"];
    assert path[1..] == ["address"] && path[1..][1..] == [];
    assert Lookup(ipv4.fields["address"], []) == Some(ipv4.fields["address"]);
    assert Lookup(ipv4, ["address"]) == Some(ipv4.fields["address"]);
  }

  /** What a neighbour entry says of its session: the address without its prefix length, and the defaults of
      what the answer leaves out. */
  lemma NeighborReads(session: SessionNode)
    ensures var entry := Transforms.Neighbor(session);
            && entry.Obj? && entry.fields.Keys == {"peer-address", "peer-as", "peer-group", "description"}
            && entry.fields["peer-as"] == Num((if session.remoteAs == None then 0 else session.remoteAs.value) as real)
            && entry.fields["peer-group"] ==
               Str(if session.peerGroup == None then "underlay" else session.peerGroup.value)
            && entry.fields["description"] == Str(if session.description == None then "" else session.description.value)
            && entry.fields["peer-address"].Str?
            && var ip := if session.remoteIp == None then "" else session.remoteIp.value;
               entry.fields["peer-address"].s == Split(ip, '/')[0]
  {
    StripCidrMeans(if session.remoteIp == None then "" else session.remoteIp.value);
  }
}
