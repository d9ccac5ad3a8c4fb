/** The fabric part of device provisioning: one allocated IPv4 prefix per peer, and the two link
    addresses derived from it. */
module FabricLinks {
  import opened Json

  const ADDRESS_BITS := 32

  /** An address with a prefix length; host bits may be set. */
  datatype Prefix = Prefix(address: nat, length: nat)

  predicate WellFormed(p: Prefix) {
    p.address < Pow2(ADDRESS_BITS) && p.length <= ADDRESS_BITS
  }

  function Pow2(n: nat): (r: nat)
    ensures r >= 1
  {
    if n == 0 then 1 else 2 * Pow2(n - 1)
  }

  /** The number of addresses of the network. */
  function Size(p: Prefix): (r: nat)
    requires p.length <= ADDRESS_BITS
    ensures r >= 1
  {
    Pow2(ADDRESS_BITS - p.length)
  }

  /** The multiple of `d` at or below `a`. */
  function RoundDown(a: nat, d: nat): (r: nat)
    requires d >= 1
    ensures r <= a < r + d
  {
    Remainder(a, d);
    a - a % d
  }

  lemma Remainder(a: nat, d: nat)
    requires d >= 1
    ensures 0 <= a % d < d && a % d <= a
  {
    if a < d { assert a % d == a; }
  }

  /** The network address: the host bits cleared. */
  function Network(p: Prefix): (r: nat)
    requires p.length <= ADDRESS_BITS
    ensures r <= p.address < r + Size(p)
  {
    RoundDown(p.address, Size(p))
  }

  predicate In(a: int, p: Prefix)
    requires p.length <= ADDRESS_BITS
  {
    Network(p) <= a < Network(p) + Size(p)
  }

  /** `list(network.hosts())` below length 31, which leaves out the network and the broadcast address,
      and `list(network)` from there on. */
  function Hosts(p: Prefix): seq<int>
    requires p.length <= ADDRESS_BITS
  {
    if p.length < 31 then
      SizeAtLeast(p.length);
      seq(Size(p) - 2, i requires 0 <= i => Network(p) + 1 + i)
    else seq(Size(p), i requires 0 <= i => Network(p) + i)
  }

  lemma {:induction false} SizeAtLeast(length: nat)
    requires length <= ADDRESS_BITS
    ensures length <= 30 ==> Pow2(ADDRESS_BITS - length) >= 4
    ensures length == 31 ==> Pow2(ADDRESS_BITS - length) == 2
    ensures length == 32 ==> Pow2(ADDRESS_BITS - length) == 1
    decreases ADDRESS_BITS - length
  {
    if length < 30 {
      SizeAtLeast(length + 1);
    } else {
      assert Pow2(0) == 1 && Pow2(1) == 2 && Pow2(2) == 4;
    }
  }

  datatype Link = Link(prefix: Prefix, local: int, remote: int, length: nat, peer: string)

  datatype Provisioning = Provisioned(links: seq<Link>) | PoolExhausted(at: nat) | TooShort(at: nat)

  predicate Linked(p: Prefix, peer: string, link: Link)
    requires p.length <= 31
  {
    && link.prefix == p && link.length == p.length && link.peer == peer
    && In(link.local, p) && In(link.remote, p) && link.remote == link.local + 1
    && link.local == Network(p) + (if p.length == 31 then 0 else 1)
  }

  /** `pool[i]` is the answer of the allocator for peer `i`. The loop stops at the first peer for which
      the pool has nothing, or for which the prefix has fewer than two addresses. */
  method ProvisionFabric(peers: seq<string>, pool: seq<Option<Prefix>>) returns (r: Provisioning)
    requires |pool| == |peers| && forall i | 0 <= i < |pool| && pool[i].Some? :: WellFormed(pool[i].value)
    ensures r.Provisioned? <==> forall i | 0 <= i < |peers| :: pool[i].Some? && pool[i].value.length <= 31
    ensures r.Provisioned? ==> |r.links| == |peers|
                               && forall i | 0 <= i < |peers| :: Linked(pool[i].value, peers[i], r.links[i])
    ensures !r.Provisioned? ==>
              && r.at < |peers|
              && (forall i | 0 <= i < r.at :: pool[i].Some? && pool[i].value.length <= 31)
              && (if r.PoolExhausted? then pool[r.at].None? else pool[r.at].Some? && pool[r.at].value.length == 32)
  {
    var links := [];
    for i := 0 to |peers|
      invariant |links| == i
      invariant forall j | 0 <= j < i :: pool[j].Some? && pool[j].value.length <= 31
      invariant forall j | 0 <= j < i :: Linked(pool[j].value, peers[j], links[j])
    {
      if pool[i].None? {
        return PoolExhausted(i);
      }
      var prefix := pool[i].value;
      var hosts := Hosts(prefix);
      SizeAtLeast(prefix.length);
      if |hosts| < 2 {
        return TooShort(i); // IndexError on hosts[1]
      }
      links := links + [Link(prefix, hosts[0], hosts[1], prefix.length, peers[i])];
    }
    r := Provisioned(links);
  }

  /** No address lies in two of the prefixes. */
  ghost predicate Disjoint(ps: seq<Prefix>)
    requires forall i | 0 <= i < |ps| :: ps[i].length <= ADDRESS_BITS
  {
    forall i, j, a: int | 0 <= i < j < |ps| :: !(In(a, ps[i]) && In(a, ps[j]))
  }

  /** The addresses of the links, two for each. */
  function Addresses(links: seq<Link>): seq<int> {
    seq(2 * |links|, k requires 0 <= k < 2 * |links| => if k % 2 == 0 then links[k / 2].local else links[k / 2].remote)
  }

  /** With disjoint prefixes the 2n link addresses are pairwise distinct, and each pair is consecutive
      in its own prefix. */
  lemma AddressesDistinct(ps: seq<Prefix>, peers: seq<string>, links: seq<Link>)
    requires |ps| == |peers| == |links|
    requires forall i | 0 <= i < |ps| :: ps[i].length <= 31 && Linked(ps[i], peers[i], links[i])
    requires Disjoint(ps)
    ensures forall k, l | 0 <= k < l < |Addresses(links)| :: Addresses(links)[k] != Addresses(links)[l]
  {
    var all := Addresses(links);
    forall k, l | 0 <= k < l < |all| ensures all[k] != all[l] {
      var i, j := k / 2, l / 2;
      assert In(all[k], ps[i]) && In(all[l], ps[j]);
      if i == j {
        assert k % 2 == 0 && l % 2 == 1;
      } else {
        assert !(In(all[k], ps[i]) && In(all[k], ps[j]));
      }
    }
  }

  /** The pair of a prefix of length 31 is the whole prefix (section 2.1 of RFC 3021), and a shorter
      prefix keeps its network and broadcast addresses out of the pair. */
  lemma PairOfPrefix(p: Prefix, peer: string, link: Link, a: int)
    requires p.length <= 31 && Linked(p, peer, link)
    ensures p.length == 31 ==> (In(a, p) <==> a == link.local || a == link.remote)
    ensures p.length < 31 ==> Network(p) < link.local && link.remote < Network(p) + Size(p) - 1
  {
    SizeAtLeast(p.length);
  }
}
