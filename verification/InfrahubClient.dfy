/** The configuration compiler on the client's side: parse the answers into models, then emit the
    variables of the two templates. */
module InfrahubClient {
  import opened Json
  import opened InfrahubGraph

  datatype DeviceData = DeviceData(id: string, name: string, asn: int, routerId: string)

  datatype InterfaceData = InterfaceData(
    name: string, description: string, mtu: int, role: string, ipAddress: Option<string>, enabled: bool)

  datatype BgpSessionData = BgpSessionData(
    description: string, localAsn: int, remoteAsn: int, localIp: string, remoteIp: string, peerGroup: string)

  datatype DeviceConfig = DeviceConfig(
    device: DeviceData, interfaces: seq<InterfaceData>, bgpSessions: seq<BgpSessionData>)

  datatype ClientError = DeviceNotFound | NoRouterId

  datatype Result<T> = Ok(value: T) | Err(error: ClientError)

  // --- parsing ------------------------------------------------------------------------------

  function ParsedInterface(node: InterfaceNode): InterfaceData {
    InterfaceData(node.name, Or(node.description, ""), MtuOf(node.mtu), Or(node.role, ""), FirstAddress(node), true)
  }

  function ParsedSession(node: SessionNode): BgpSessionData {
    BgpSessionData(Or(node.description, ""), Or(node.localAs, 0), Or(node.remoteAs, 0),
                   Or(node.localIp, ""), Or(node.remoteIp, ""), Or(node.peerGroup, "underlay"))
  }

  method GetDeviceInterfaces(nodes: seq<InterfaceNode>) returns (interfaces: seq<InterfaceData>)
    ensures |interfaces| == |nodes|
    ensures forall i | 0 <= i < |nodes| :: interfaces[i] == ParsedInterface(nodes[i])
  {
    interfaces := [];
    for i := 0 to |nodes|
      invariant |interfaces| == i
      invariant forall j | 0 <= j < i :: interfaces[j] == ParsedInterface(nodes[j])
    {
      var node := nodes[i];
      var address := if node.addresses != [] then Some(node.addresses[0]) else None;
      interfaces := interfaces + [InterfaceData(node.name, Or(node.description, ""), MtuOf(node.mtu),
                                                Or(node.role, ""), address, true)];
    }
  }

  method GetDeviceBgpSessions(nodes: seq<SessionNode>) returns (sessions: seq<BgpSessionData>)
    ensures |sessions| == |nodes|
    ensures forall i | 0 <= i < |nodes| :: sessions[i] == ParsedSession(nodes[i])
  {
    sessions := [];
    for i := 0 to |nodes|
      invariant |sessions| == i
      invariant forall j | 0 <= j < i :: sessions[j] == ParsedSession(nodes[j])
    {
      var node := nodes[i];
      var session := BgpSessionData(Or(node.description, ""), Or(node.localAs, 0), Or(node.remoteAs, 0),
                                    Or(node.localIp, ""), Or(node.remoteIp, ""), Or(node.peerGroup, "underlay"));
      sessions := sessions + [session];
    }
  }

  /** The first loopback with a non-empty address; a router identifier may still be empty, when the
      address begins with the slash. */
  function DerivedRouterId(interfaces: seq<InterfaceData>): string {
    if interfaces == [] then ""
    else if interfaces[0].role == "loopback" && Or(interfaces[0].ipAddress, "") != ""
    then Split(interfaces[0].ipAddress.value, '/')[0]
    else DerivedRouterId(interfaces[1..])
  }

  function Parsed(devices: seq<DeviceNode>, interfaces: seq<InterfaceNode>, sessions: seq<SessionNode>)
    : Result<DeviceConfig>
  {
    if devices == [] then Err(DeviceNotFound)
    else
      var parsed := seq(|interfaces|, i requires 0 <= i < |interfaces| => ParsedInterface(interfaces[i]));
      var routerId := DerivedRouterId(parsed);
      if routerId == "" then Err(NoRouterId)
      else Ok(DeviceConfig(
        DeviceData(devices[0].id, devices[0].name, Or(devices[0].asn, 0), routerId), parsed,
        seq(|sessions|, i requires 0 <= i < |sessions| => ParsedSession(sessions[i]))))
  }

  method GetDeviceConfig(devices: seq<DeviceNode>, interfaces: seq<InterfaceNode>, sessions: seq<SessionNode>)
    returns (r: Result<DeviceConfig>)
    ensures r == Parsed(devices, interfaces, sessions)
  {
    if devices == [] {
      return Err(DeviceNotFound);
    }
    var device := DeviceData(devices[0].id, devices[0].name, Or(devices[0].asn, 0), "");
    var ifaces := GetDeviceInterfaces(interfaces);
    var bgp := GetDeviceBgpSessions(sessions);
    ghost var parsed := seq(|interfaces|, i requires 0 <= i < |interfaces| => ParsedInterface(interfaces[i]));
    assert ifaces == parsed;
    assert bgp == seq(|sessions|, i requires 0 <= i < |sessions| => ParsedSession(sessions[i]));
    ghost var found := device;
    var i := 0;
    while i < |ifaces|
      invariant 0 <= i <= |ifaces| && device == found
      invariant DerivedRouterId(ifaces) == DerivedRouterId(ifaces[i..])
    {
      if ifaces[i].role == "loopback" && ifaces[i].ipAddress.Some? && ifaces[i].ipAddress.value != "" {
        device := device.(routerId := Split(ifaces[i].ipAddress.value, '/')[0]);
        break;
      }
      i := i + 1;
    }
    assert device.routerId == DerivedRouterId(ifaces);
    if device.routerId == "" {
      return Err(NoRouterId);
    }
    r := Ok(DeviceConfig(device, ifaces, bgp));
  }

  // --- template variables -------------------------------------------------------------------

  datatype InterfaceEntry = InterfaceEntry(
    name: string, description: string, enabled: bool, mtu: int, subinterfaceIndex: nat, ipAddress: Option<string>)

  function ToInterfaceTemplateVars(interfaces: seq<InterfaceData>): seq<InterfaceEntry> {
    if interfaces == [] then []
    else
      var i := interfaces[0];
      (if i.role == "fabric" || i.role == "loopback"
       then [InterfaceEntry(i.name, i.description, i.enabled, i.mtu, 0, i.ipAddress)] else [])
      + ToInterfaceTemplateVars(interfaces[1..])
  }

  datatype BgpTemplateSession = BgpTemplateSession(
    remoteIp: string, remoteAsn: int, group: string, description: string)

  datatype BgpTemplateVars = BgpTemplateVars(
    networkInstance: string, localAsn: int, routerId: string, groupName: string,
    exportPolicy: string, importPolicy: string, bgpSessions: seq<BgpTemplateSession>)

  function ToBgpTemplateVars(config: DeviceConfig): BgpTemplateVars {
    BgpTemplateVars("default", config.device.asn, config.device.routerId, "underlay", "export-all", "import-all",
      seq(|config.bgpSessions|, i requires 0 <= i < |config.bgpSessions| =>
        var s := config.bgpSessions[i];
        BgpTemplateSession(StripCidr(s.remoteIp), s.remoteAsn, s.peerGroup, s.description)))
  }

  // --- templates ----------------------------------------------------------------------------

  /** What the interface template writes for one entry. */
  function RenderInterface(e: InterfaceEntry): Json {
    var plain: Doc := map["index" := Num(e.subinterfaceIndex as real), "description" := Str(e.description)];
    var subinterface :=
      if e.ipAddress.None? || e.ipAddress.value == "" then plain
      else plain + map["ipv4" := Obj(map["admin-state" := Str("enable"),
                                         "address" := Arr([Obj(map["ip-prefix" := Str(e.ipAddress.value)])])])];
    Obj(map["name" := Str(e.name), "description" := Str(e.description),
            "admin-state" := Str(if e.enabled then "enable" else "disable"),
            "mtu" := Num(e.mtu as real), "subinterface" := Arr([Obj(subinterface)])])
  }

  function RenderInterfaces(entries: seq<InterfaceEntry>): Json {
    Obj(map["interface" := Arr(seq(|entries|, i requires 0 <= i < |entries| => RenderInterface(entries[i])))])
  }

  function RenderSession(s: BgpTemplateSession): Json {
    Obj(map["peer-address" := Str(s.remoteIp), "peer-as" := Num(s.remoteAsn as real),
            "peer-group" := Str(s.group), "description" := Str(s.description)])
  }

  function RenderBgp(v: BgpTemplateVars): Json {
    var bgp := Obj(map[
      "autonomous-system" := Num(v.localAsn as real),
      "router-id" := Str(v.routerId),
      "group" := Arr([Obj(map["group-name" := Str(v.groupName), "export-policy" := Str(v.exportPolicy),
                              "import-policy" := Str(v.importPolicy)])]),
      "neighbor" := Arr(seq(|v.bgpSessions|, i requires 0 <= i < |v.bgpSessions| => RenderSession(v.bgpSessions[i])))]);
    Obj(map["network-instance" := Arr([Obj(map[
      "name" := Str(v.networkInstance), "protocols" := Obj(map["bgp" := bgp])])])])
  }
}
