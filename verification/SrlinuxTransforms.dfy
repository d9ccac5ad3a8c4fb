/** The configuration compilers that run inside Infrahub, on the answers of its queries. */
module SrlinuxTransforms {
  import opened Json
  import opened InfrahubGraph

  // --- interfaces ---------------------------------------------------------------------------

  predicate Configured(node: InterfaceNode) {
    Or(node.role, "") == "fabric" || Or(node.role, "") == "loopback"
  }

  function Ipv4(address: string): Json {
    Obj(map["admin-state" := Str("enable"), "address" := Arr([Obj(map["ip-prefix" := Str(address)])])])
  }

  function InterfaceEntry(name: string, description: string, mtu: int, subinterface: Doc): Json {
    Obj(map["name" := Str(name), "description" := Str(description), "admin-state" := Str("enable"),
            "mtu" := Num(mtu as real), "subinterface" := Arr([Obj(subinterface)])])
  }

  function Subinterface(description: string, address: Option<string>): Doc {
    var bare: Doc := map["index" := Num(0.0), "description" := Str(description)];
    if address.Some? && address.value != "" then bare["ipv4" := Ipv4(address.value)] else bare
  }

  function CompiledInterface(node: InterfaceNode): Json {
    InterfaceEntry(node.name, Or(node.description, ""), MtuOf(node.mtu),
                   Subinterface(Or(node.description, ""), FirstAddress(node)))
  }

  function CompiledInterfaces(nodes: seq<InterfaceNode>): seq<Json> {
    if nodes == [] then []
    else CompiledInterfaces(nodes[..|nodes| - 1])
         + (if Configured(nodes[|nodes| - 1]) then [CompiledInterface(nodes[|nodes| - 1])] else [])
  }

  function InterfaceConfig(interfaces: seq<Json>): Json {
    Obj(map["interface" := Arr(interfaces)])
  }

  method TransformInterfaces(nodes: seq<InterfaceNode>) returns (config: Json)
    ensures config == InterfaceConfig(CompiledInterfaces(nodes))
  {
    var interfaces := [];
    for i := 0 to |nodes|
      invariant interfaces == CompiledInterfaces(nodes[..i])
    {
      assert nodes[..i + 1][..i] == nodes[..i];
      var node := nodes[i];
      var role := Or(node.role, "");
      if role != "fabric" && role != "loopback" {
        continue;
      }
      var description := Or(node.description, "");
      var mtu := MtuOf(node.mtu);
      var address := if node.addresses != [] then Some(node.addresses[0]) else None;
      var subinterface: Doc := map["index" := Num(0.0), "description" := Str(description)];
      if address.Some? && address.value != "" {
        subinterface := subinterface["ipv4" := Ipv4(address.value)];
      }
      interfaces := interfaces + [InterfaceEntry(node.name, description, mtu, subinterface)];
    }
    assert nodes[..|nodes|] == nodes;
    config := InterfaceConfig(interfaces);
  }

  // --- BGP ----------------------------------------------------------------------------------

  /** The router identifier comes from the first loopback that has an address entry, also when that
      entry is an empty string. */
  function RouterId(nodes: seq<InterfaceNode>): string {
    if nodes == [] then ""
    else if IsLoopback(nodes[0]) && nodes[0].addresses != [] then StripCidr(nodes[0].addresses[0])
    else RouterId(nodes[1..])
  }

  function Neighbor(session: SessionNode): Json {
    Obj(map["peer-address" := Str(if session.remoteIp.Some? then StripCidr(session.remoteIp.value) else ""),
            "peer-as" := Num(Or(session.remoteAs, 0) as real),
            "peer-group" := Str(Or(session.peerGroup, "underlay")),
            "description" := Str(Or(session.description, ""))])
  }

  function Neighbors(sessions: seq<SessionNode>): seq<Json> {
    if sessions == [] then [] else Neighbors(sessions[..|sessions| - 1]) + [Neighbor(sessions[|sessions| - 1])]
  }

  function BgpConfig(asn: int, routerId: string, neighbors: seq<Json>): Json {
    Obj(map["network-instance" := Arr([Obj(map[
      "name" := Str("default"),
      "protocols" := Obj(map["bgp" := BgpProtocol(asn, routerId, neighbors)])])])])
  }

  function BgpProtocol(asn: int, routerId: string, neighbors: seq<Json>): Json {
    Obj(map["autonomous-system" := Num(asn as real),
            "router-id" := Str(routerId),
            "group" := Arr([Obj(map["group-name" := Str("underlay"), "export-policy" := Str("export-all"),
                                    "import-policy" := Str("import-all")])]),
            "neighbor" := Arr(neighbors)])
  }

  function CompiledBgp(devices: seq<DeviceNode>, interfaces: seq<InterfaceNode>, sessions: seq<SessionNode>): Json {
    if devices == [] then Obj(map[])
    else BgpConfig(Or(devices[0].asn, 0), RouterId(interfaces), Neighbors(sessions))
  }

  method TransformBgp(devices: seq<DeviceNode>, interfaces: seq<InterfaceNode>, sessions: seq<SessionNode>)
    returns (config: Json)
    ensures config == CompiledBgp(devices, interfaces, sessions)
  {
    if devices == [] {
      return Obj(map[]);
    }
    var localAsn := Or(devices[0].asn, 0);
    var routerId := "";
    var i := 0;
    while i < |interfaces|
      invariant 0 <= i <= |interfaces| && routerId == ""
      invariant RouterId(interfaces) == RouterId(interfaces[i..])
    {
      var node := interfaces[i];
      if node.role == Some("loopback") && node.addresses != [] {
        routerId := StripCidr(node.addresses[0]);
        break;
      }
      i := i + 1;
    }
    assert routerId == RouterId(interfaces);
    var neighbors := [];
    for j := 0 to |sessions|
      invariant neighbors == Neighbors(sessions[..j])
    {
      assert sessions[..j + 1][..j] == sessions[..j];
      var session := sessions[j];
      neighbors := neighbors + [Neighbor(session)];
    }
    assert sessions[..|sessions|] == sessions;
    config := BgpConfig(localAsn, routerId, neighbors);
  }
}
