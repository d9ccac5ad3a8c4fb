/** The answers of the Infrahub GraphQL queries, as far as the two configuration compilers read them.
    An attribute is absent or has a value; a related node is absent or has the one attribute read. */
module InfrahubGraph {
  import opened Json

  datatype DeviceNode = DeviceNode(id: string, name: string, asn: Option<int>)

  datatype InterfaceNode = InterfaceNode(
    name: string, description: Option<string>, mtu: Option<int>, role: Option<string>, addresses: seq<string>)

  datatype SessionNode = SessionNode(
    description: Option<string>, localAs: Option<int>, remoteAs: Option<int>,
    localIp: Option<string>, remoteIp: Option<string>, peerGroup: Option<string>)

  function Or<T>(value: Option<T>, default: T): T {
    if value.Some? then value.value else default
  }

  const DEFAULT_MTU := 9214

  /** A missing, null or zero MTU is the default one. */
  function MtuOf(mtu: Option<int>): int {
    if mtu.None? || mtu.value == 0 then DEFAULT_MTU else mtu.value
  }

  function FirstAddress(node: InterfaceNode): Option<string> {
    if node.addresses == [] then None else Some(node.addresses[0])
  }

  predicate IsLoopback(node: InterfaceNode) {
    node.role == Some("loopback")
  }

  function Loopbacks(nodes: seq<InterfaceNode>): seq<InterfaceNode> {
    if nodes == [] then []
    else (if IsLoopback(nodes[0]) then [nodes[0]] else []) + Loopbacks(nodes[1..])
  }

  /** `s.split(sep)`. */
  function Split(s: string, sep: char): (parts: seq<string>)
    ensures parts != []
  {
    if s == "" then [""]
    else
      var rest := Split(s[1..], sep);
      if s[0] == sep then [""] + rest else [[s[0]] + rest[0]] + rest[1..]
  }

  /** `s.split(sep, maxsplit=1)`. */
  function SplitOnce(s: string, sep: char): (parts: seq<string>)
    ensures parts != []
  {
    if s == "" then [""]
    else if s[0] == sep then ["", s[1..]]
    else
      var rest := SplitOnce(s[1..], sep);
      [[s[0]] + rest[0]] + rest[1..]
  }

  function StripCidr(ip: string): string {
    if '/' in ip then SplitOnce(ip, '/')[0] else ip
  }

  /** Everything before the first slash: both ways of cutting a prefix length off agree. */
  lemma {:induction false} StripCidrMeans(ip: string)
    ensures StripCidr(ip) == Split(ip, '/')[0] == SplitOnce(ip, '/')[0]
    ensures StripCidr(ip) <= ip && '/' !in StripCidr(ip)
    ensures |StripCidr(ip)| < |ip| ==> ip[|StripCidr(ip)|] == '/'
    decreases |ip|
  {
    if ip != "" {
      StripCidrMeans(ip[1..]);
      if ip[0] != '/' {
        assert '/' in ip <==> '/' in ip[1..];
        assert ip == [ip[0]] + ip[1..];
      }
    }
  }
}
