/** The gate before a deployment: two validators over parsed payloads. A value of the wrong shape makes
    the Python raise, which is a verdict of its own here. Address validity is a parameter. */
module HygieneChecker {
  import opened Json

  datatype Verdict = Pass | Fail | Raise

  function Truthy(j: Json): bool {
    match j
    case Null => false
    case Bool(b) => b
    case Num(n) => n != 0.0
    case Str(s) => s != ""
    case Arr(items) => items != []
    case Obj(fields) => fields != map[]
  }

  /** `fields.get(key, default)`. */
  function GetOr(fields: Doc, key: string, default: Json): Json {
    if key in fields then fields[key] else default
  }

  /** What a `for` loop over the value sees. The keys of an object and the characters of a string are
      strings, and the first of them stops the loops below. */
  function Elements(j: Json): Option<seq<Json>> {
    match j
    case Arr(items) => Some(items)
    case Obj(fields) => Some(if fields == map[] then [] else [Str("")])
    case Str(s) => Some(if s == "" then [] else [Str("")])
    case _ => None
  }

  predicate Contains(s: string, part: string) {
    exists i | 0 <= i <= |s| :: part <= s[i..]
  }

  /** `key not in config`, for what JSON can parse to; `None` is a type error. */
  function Lacks(config: Json, key: string): Option<bool> {
    match config
    case Obj(fields) => Some(key !in fields)
    case Arr(items) => Some(Str(key) !in items)
    case Str(s) => Some(!Contains(s, key))
    case _ => None
  }

  // --- BGP ----------------------------------------------------------------------------------

  const MAX_ASN := 4294967295

  function AsnVerdict(asn: Json): Verdict {
    if !Truthy(asn) then Fail
    else match asn
      case Num(n) => if 1.0 <= n <= MAX_ASN as real then Pass else Fail
      case Bool(_) => Pass
      case _ => Raise
  }

  function NeighborVerdict(neighbor: Json, validIp: Json -> bool): Verdict {
    match neighbor
    case Obj(fields) => if validIp(GetOr(fields, "peer-address", Null)) then Pass else Fail
    case _ => Raise
  }

  function NeighborsVerdict(neighbors: seq<Json>, validIp: Json -> bool): Verdict {
    if neighbors == [] then Pass
    else
      var v := NeighborVerdict(neighbors[0], validIp);
      if v == Pass then NeighborsVerdict(neighbors[1..], validIp) else v
  }

  function BgpVerdict(bgp: Doc, validIp: Json -> bool): Verdict {
    var asn := AsnVerdict(GetOr(bgp, "autonomous-system", Null));
    if asn != Pass then asn
    else if !Truthy(GetOr(bgp, "group", Arr([]))) then Fail
    else match Elements(GetOr(bgp, "neighbor", Arr([])))
      case None => Raise
      case Some(neighbors) => NeighborsVerdict(neighbors, validIp)
  }

  function InstanceVerdict(instance: Json, validIp: Json -> bool): Verdict {
    match instance
    case Obj(fields) =>
      (match GetOr(fields, "protocols", Obj(map[]))
       case Obj(protocols) =>
         var bgp := GetOr(protocols, "bgp", Null);
         if !Truthy(bgp) then Pass else if bgp.Obj? then BgpVerdict(bgp.fields, validIp) else Raise
       case _ => Raise)
    case _ => Raise
  }

  function InstancesVerdict(instances: seq<Json>, validIp: Json -> bool): Verdict {
    if instances == [] then Pass
    else
      var v := InstanceVerdict(instances[0], validIp);
      if v == Pass then InstancesVerdict(instances[1..], validIp) else v
  }

  /** `payload` is `None` when the text is not JSON. */
  function BgpGate(payload: Option<Json>, validIp: Json -> bool): Verdict {
    if payload.None? then Fail
    else match Lacks(payload.value, "network-instance")
      case None => Raise
      case Some(true) => Pass
      case Some(false) =>
        if !payload.value.Obj? then Raise
        else match Elements(payload.value.fields["network-instance"])
          case None => Raise
          case Some(instances) => InstancesVerdict(instances, validIp)
  }

  method ValidateBgpHygiene(payload: Option<Json>, validIp: Json -> bool) returns (v: Verdict)
    ensures v == BgpGate(payload, validIp)
  {
    if payload.None? { return Fail; }
    var config := payload.value;
    var lacks := Lacks(config, "network-instance");
    if lacks.None? { return Raise; }
    if lacks.value { return Pass; }
    if !config.Obj? { return Raise; }
    var instances := Elements(config.fields["network-instance"]);
    if instances.None? { return Raise; }
    var i := 0;
    while i < |instances.value|
      invariant 0 <= i <= |instances.value|
      invariant InstancesVerdict(instances.value, validIp) == InstancesVerdict(instances.value[i..], validIp)
    {
      var instance := instances.value[i];
      i := i + 1;
      if !instance.Obj? { return Raise; }
      var protocols := GetOr(instance.fields, "protocols", Obj(map[]));
      if !protocols.Obj? { return Raise; }
      var bgp := GetOr(protocols.fields, "bgp", Null);
      if !Truthy(bgp) { continue; }
      if !bgp.Obj? { return Raise; }
      var asn := GetOr(bgp.fields, "autonomous-system", Null);
      if AsnVerdict(asn) != Pass { return AsnVerdict(asn); }
      if !Truthy(GetOr(bgp.fields, "group", Arr([]))) { return Fail; }
      var neighbors := Elements(GetOr(bgp.fields, "neighbor", Arr([])));
      if neighbors.None? { return Raise; }
      v := CheckNeighbors(neighbors.value, validIp);
      if v != Pass { return; }
    }
    v := Pass;
  }

  method CheckNeighbors(neighbors: seq<Json>, validIp: Json -> bool) returns (v: Verdict)
    ensures v == NeighborsVerdict(neighbors, validIp)
  {
    var i := 0;
    while i < |neighbors|
      invariant 0 <= i <= |neighbors|
      invariant NeighborsVerdict(neighbors, validIp) == NeighborsVerdict(neighbors[i..], validIp)
    {
      if !neighbors[i].Obj? { return Raise; }
      if !validIp(GetOr(neighbors[i].fields, "peer-address", Null)) { return Fail; }
      i := i + 1;
    }
    v := Pass;
  }

  /** A network instance that the gate lets through: it has no BGP object, or one with an AS number in
      range, at least one group, and a valid address for every neighbour. */
  ghost predicate CleanInstance(instance: Json, validIp: Json -> bool) {
    && instance.Obj?
    && var protocols := GetOr(instance.fields, "protocols", Obj(map[]));
       && protocols.Obj?
       && var bgp := GetOr(protocols.fields, "bgp", Null);
          (!Truthy(bgp) || (bgp.Obj? && CleanBgp(bgp.fields, validIp)))
  }

  /** An AS number in range; `True` counts as the number 1. */
  predicate AsnInRange(asn: Json) {
    (asn.Num? && 1.0 <= asn.n <= 4294967295.0) || asn == Bool(true)
  }

  ghost predicate CleanBgp(bgp: Doc, validIp: Json -> bool) {
    && AsnInRange(GetOr(bgp, "autonomous-system", Null))
    && Truthy(GetOr(bgp, "group", Null))
    && var neighbors := Elements(GetOr(bgp, "neighbor", Arr([])));
       neighbors.Some? && forall n | n in neighbors.value :: CleanNeighbor(n, validIp)
  }

  predicate CleanNeighbor(n: Json, validIp: Json -> bool) {
    n.Obj? && validIp(GetOr(n.fields, "peer-address", Null))
  }

  lemma Members(items: seq<Json>, item: Json)
    requires items != []
    ensures item in items <==> item == items[0] || item in items[1..]
  {
    assert items == [items[0]] + items[1..];
  }

  lemma {:induction false} NeighborsPassIff(ns: seq<Json>, validIp: Json -> bool)
    ensures NeighborsVerdict(ns, validIp) == Pass
            <==> forall n | n in ns :: CleanNeighbor(n, validIp)
    decreases |ns|
  {
    if ns != [] {
      NeighborsPassIff(ns[1..], validIp);
      assert NeighborVerdict(ns[0], validIp) == Pass <==> CleanNeighbor(ns[0], validIp);
      hide NeighborVerdict;
      hide CleanNeighbor;
      forall n { Members(ns, n); }
    }
  }

  lemma InstancePassesIff(instance: Json, validIp: Json -> bool)
    ensures InstanceVerdict(instance, validIp) == Pass <==> CleanInstance(instance, validIp)
  {
    if instance.Obj? {
      var protocols := GetOr(instance.fields, "protocols", Obj(map[]));
      if protocols.Obj? {
        var bgp := GetOr(protocols.fields, "bgp", Null);
        if bgp.Obj? {
          var neighbors := Elements(GetOr(bgp.fields, "neighbor", Arr([])));
          if neighbors.Some? { NeighborsPassIff(neighbors.value, validIp); }
        }
      }
    }
  }

  lemma {:induction false} InstancesPassIff(instances: seq<Json>, validIp: Json -> bool)
    ensures InstancesVerdict(instances, validIp) == Pass <==> forall i | i in instances :: CleanInstance(i, validIp)
    decreases |instances|
  {
    if instances != [] {
      InstancePassesIff(instances[0], validIp);
      InstancesPassIff(instances[1..], validIp);
      hide CleanInstance;
      hide InstanceVerdict;
      forall i { Members(instances, i); }
    }
  }

  /** For every payload: the BGP gate passes what does not mention network instances at all, and an
      object whose network instances are all clean; it passes nothing else. */
  lemma BgpGatePassesIff(payload: Option<Json>, validIp: Json -> bool)
    ensures BgpGate(payload, validIp) == Pass <==>
            && payload.Some?
            && (|| Lacks(payload.value, "network-instance") == Some(true)
                || (&& payload.value.Obj? && "network-instance" in payload.value.fields
                    && var instances := Elements(payload.value.fields["network-instance"]);
                       instances.Some? && forall i | i in instances.value :: CleanInstance(i, validIp)))
  {
    hide CleanInstance;
    if payload.Some? && payload.value.Obj? && "network-instance" in payload.value.fields {
      var instances := Elements(payload.value.fields["network-instance"]);
      if instances.Some? { InstancesPassIff(instances.value, validIp); }
    }
  }

  // --- interfaces ---------------------------------------------------------------------------

  predicate GoodPrefix(name: string) {
    "ethernet-" <= name || "system" <= name || "loopback" <= name || "mgmt" <= name
  }

  function AddressVerdict(address: Json, validNetwork: Json -> bool): Verdict {
    match address
    case Obj(fields) => if validNetwork(GetOr(fields, "ip-prefix", Null)) then Pass else Fail
    case _ => Raise
  }

  function AddressesVerdict(addresses: seq<Json>, validNetwork: Json -> bool): Verdict {
    if addresses == [] then Pass
    else
      var v := AddressVerdict(addresses[0], validNetwork);
      if v == Pass then AddressesVerdict(addresses[1..], validNetwork) else v
  }

  function SubinterfaceVerdict(sub: Json, validNetwork: Json -> bool): Verdict {
    match sub
    case Obj(fields) =>
      (match GetOr(fields, "ipv4", Obj(map[]))
       case Obj(ipv4) =>
         (match Elements(GetOr(ipv4, "address", Arr([])))
          case None => Raise
          case Some(addresses) => AddressesVerdict(addresses, validNetwork))
       case _ => Raise)
    case _ => Raise
  }

  function SubinterfacesVerdict(subs: seq<Json>, validNetwork: Json -> bool): Verdict {
    if subs == [] then Pass
    else
      var v := SubinterfaceVerdict(subs[0], validNetwork);
      if v == Pass then SubinterfacesVerdict(subs[1..], validNetwork) else v
  }

  function InterfaceVerdict(iface: Json, validNetwork: Json -> bool): Verdict {
    match iface
    case Obj(fields) =>
      (match GetOr(fields, "name", Str(""))
       case Str(name) =>
         if !GoodPrefix(name) then Fail
         else (match Elements(GetOr(fields, "subinterface", Arr([])))
               case None => Raise
               case Some(subs) => SubinterfacesVerdict(subs, validNetwork))
       case _ => Raise)
    case _ => Raise
  }

  function InterfacesVerdict(interfaces: seq<Json>, validNetwork: Json -> bool): Verdict {
    if interfaces == [] then Pass
    else
      var v := InterfaceVerdict(interfaces[0], validNetwork);
      if v == Pass then InterfacesVerdict(interfaces[1..], validNetwork) else v
  }

  function InterfaceGate(payload: Option<Json>, validNetwork: Json -> bool): Verdict {
    if payload.None? then Fail
    else match Lacks(payload.value, "interface")
      case None => Raise
      case Some(true) => Pass
      case Some(false) =>
        if !payload.value.Obj? then Raise
        else match Elements(payload.value.fields["interface"])
          case None => Raise
          case Some(interfaces) => InterfacesVerdict(interfaces, validNetwork)
  }

  method ValidateInterfaceHygiene(payload: Option<Json>, validNetwork: Json -> bool) returns (v: Verdict)
    ensures v == InterfaceGate(payload, validNetwork)
  {
    if payload.None? { return Fail; }
    var config := payload.value;
    var lacks := Lacks(config, "interface");
    if lacks.None? { return Raise; }
    if lacks.value { return Pass; }
    if !config.Obj? { return Raise; }
    var interfaces := Elements(config.fields["interface"]);
    if interfaces.None? { return Raise; }
    var i := 0;
    while i < |interfaces.value|
      invariant 0 <= i <= |interfaces.value|
      invariant InterfacesVerdict(interfaces.value, validNetwork)
                == InterfacesVerdict(interfaces.value[i..], validNetwork)
    {
      var iface := interfaces.value[i];
      i := i + 1;
      if !iface.Obj? { return Raise; }
      var name := GetOr(iface.fields, "name", Str(""));
      if !name.Str? { return Raise; }
      if !GoodPrefix(name.s) { return Fail; }
      var subs := Elements(GetOr(iface.fields, "subinterface", Arr([])));
      if subs.None? { return Raise; }
      v := CheckSubinterfaces(subs.value, validNetwork);
      if v != Pass { return; }
    }
    v := Pass;
  }

  method CheckSubinterfaces(subs: seq<Json>, validNetwork: Json -> bool) returns (v: Verdict)
    ensures v == SubinterfacesVerdict(subs, validNetwork)
  {
    var i := 0;
    while i < |subs|
      invariant 0 <= i <= |subs|
      invariant SubinterfacesVerdict(subs, validNetwork) == SubinterfacesVerdict(subs[i..], validNetwork)
    {
      var sub := subs[i];
      i := i + 1;
      if !sub.Obj? { return Raise; }
      var ipv4 := GetOr(sub.fields, "ipv4", Obj(map[]));
      if !ipv4.Obj? { return Raise; }
      var addresses := Elements(GetOr(ipv4.fields, "address", Arr([])));
      if addresses.None? { return Raise; }
      var j := 0;
      while j < |addresses.value|
        invariant 0 <= j <= |addresses.value|
        invariant AddressesVerdict(addresses.value, validNetwork)
                  == AddressesVerdict(addresses.value[j..], validNetwork)
      {
        if !addresses.value[j].Obj? { return Raise; }
        if !validNetwork(GetOr(addresses.value[j].fields, "ip-prefix", Null)) { return Fail; }
        j := j + 1;
      }
    }
    v := Pass;
  }

  /** An interface that the gate lets through: a good name, and on every subinterface only valid prefixes. */
  ghost predicate CleanInterface(iface: Json, validNetwork: Json -> bool) {
    && iface.Obj?
    && var name := GetOr(iface.fields, "name", Str(""));
       && name.Str? && GoodPrefix(name.s)
       && var subs := Elements(GetOr(iface.fields, "subinterface", Arr([])));
          subs.Some? && forall s | s in subs.value :: CleanSubinterface(s, validNetwork)
  }

  ghost predicate CleanSubinterface(sub: Json, validNetwork: Json -> bool) {
    && sub.Obj?
    && var ipv4 := GetOr(sub.fields, "ipv4", Obj(map[]));
       && ipv4.Obj?
       && var addresses := Elements(GetOr(ipv4.fields, "address", Arr([])));
          addresses.Some?
          && forall a | a in addresses.value :: CleanAddress(a, validNetwork)
  }

  predicate CleanAddress(a: Json, validNetwork: Json -> bool) {
    a.Obj? && validNetwork(GetOr(a.fields, "ip-prefix", Null))
  }

  lemma {:induction false} AddressesPassIff(addresses: seq<Json>, validNetwork: Json -> bool)
    ensures AddressesVerdict(addresses, validNetwork) == Pass
            <==> forall a | a in addresses :: CleanAddress(a, validNetwork)
    decreases |addresses|
  {
    if addresses != [] {
      AddressesPassIff(addresses[1..], validNetwork);
      assert AddressVerdict(addresses[0], validNetwork) == Pass <==> CleanAddress(addresses[0], validNetwork);
      hide AddressVerdict;
      hide CleanAddress;
      forall a { Members(addresses, a); }
    }
  }

  lemma {:induction false} SubinterfacesPassIff(subs: seq<Json>, validNetwork: Json -> bool)
    ensures SubinterfacesVerdict(subs, validNetwork) == Pass
            <==> forall s | s in subs :: CleanSubinterface(s, validNetwork)
    decreases |subs|
  {
    if subs != [] {
      SubinterfacePassesIff(subs[0], validNetwork);
      SubinterfacesPassIff(subs[1..], validNetwork);
      hide CleanSubinterface;
      hide SubinterfaceVerdict;
      forall s { Members(subs, s); }
    }
  }

  lemma SubinterfacePassesIff(sub: Json, validNetwork: Json -> bool)
    ensures SubinterfaceVerdict(sub, validNetwork) == Pass <==> CleanSubinterface(sub, validNetwork)
  {
    if sub.Obj? {
      var ipv4 := GetOr(sub.fields, "ipv4", Obj(map[]));
      if ipv4.Obj? {
        var addresses := Elements(GetOr(ipv4.fields, "address", Arr([])));
        if addresses.Some? { AddressesPassIff(addresses.value, validNetwork); }
      }
    }
  }

  lemma InterfacePassesIff(iface: Json, validNetwork: Json -> bool)
    ensures InterfaceVerdict(iface, validNetwork) == Pass <==> CleanInterface(iface, validNetwork)
  {
    hide CleanSubinterface;
    if iface.Obj? {
      var subs := Elements(GetOr(iface.fields, "subinterface", Arr([])));
      if subs.Some? { SubinterfacesPassIff(subs.value, validNetwork); }
    }
  }

  lemma {:induction false} InterfacesPassIff(interfaces: seq<Json>, validNetwork: Json -> bool)
    ensures InterfacesVerdict(interfaces, validNetwork) == Pass
            <==> forall i | i in interfaces :: CleanInterface(i, validNetwork)
    decreases |interfaces|
  {
    if interfaces != [] {
      InterfacePassesIff(interfaces[0], validNetwork);
      InterfacesPassIff(interfaces[1..], validNetwork);
      hide CleanInterface;
      hide InterfaceVerdict;
      forall i { Members(interfaces, i); }
    }
  }

  /** For every payload: the interface gate passes what does not mention interfaces at all, and an object
      whose interfaces are all clean; it passes nothing else. */
  lemma InterfaceGatePassesIff(payload: Option<Json>, validNetwork: Json -> bool)
    ensures InterfaceGate(payload, validNetwork) == Pass <==>
            && payload.Some?
            && (|| Lacks(payload.value, "interface") == Some(true)
                || (&& payload.value.Obj? && "interface" in payload.value.fields
                    && var interfaces := Elements(payload.value.fields["interface"]);
                       interfaces.Some? && forall i | i in interfaces.value :: CleanInterface(i, validNetwork)))
  {
    hide CleanInterface;
    if payload.Some? && payload.value.Obj? && "interface" in payload.value.fields {
      var interfaces := Elements(payload.value.fields["interface"]);
      if interfaces.Some? { InterfacesPassIff(interfaces.value, validNetwork); }
    }
  }

  /** What counts as a valid address and a valid network. */
  datatype Rules = Rules(validIp: Json -> bool, validNetwork: Json -> bool)

  /** The gate on both payloads. */
  function Hygiene(bgp: Option<Json>, interfaces: Option<Json>, rules: Rules): Verdict {
    var first, second := BgpGate(bgp, rules.validIp), InterfaceGate(interfaces, rules.validNetwork);
    if first == Raise || second == Raise then Raise
    else if first == Pass && second == Pass then Pass
    else Fail
  }

  /** Both validators run, whatever the first says. */
  method RunHygieneChecks(
      bgp: Option<Json>, interfaces: Option<Json>, validIp: Json -> bool, validNetwork: Json -> bool)
    returns (v: Verdict)
    ensures v == Hygiene(bgp, interfaces, Rules(validIp, validNetwork))
    ensures v == Pass <==> BgpGate(bgp, validIp) == Pass && InterfaceGate(interfaces, validNetwork) == Pass
    ensures v == Raise <==> BgpGate(bgp, validIp) == Raise || InterfaceGate(interfaces, validNetwork) == Raise
  {
    v := ValidateBgpHygiene(bgp, validIp);
    if v == Raise { return; }
    var second := ValidateInterfaceHygiene(interfaces, validNetwork);
    if second == Raise { return Raise; }
    return if v == Pass && second == Pass then Pass else Fail;
  }
}
