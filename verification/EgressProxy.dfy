/** The proxy's view of the policy document (egress_proxy.py): a cache keyed by the file's
    modification time, and the lookup over it. */
module EgressProxy {
  import opened Wrappers
  import opened Egress

  // ---- networks ----

  datatype Network = Network(ip: Ip, prefix: nat)

  function MaxPrefix(v6: bool): nat { if v6 then 128 else 32 }

  function Pow2(n: nat): nat { if n == 0 then 1 else 2 * Pow2(n - 1) }

  lemma {:induction false} Pow2Positive(n: nat)
    ensures Pow2(n) > 0
  {
    if n > 0 {
      Pow2Positive(n - 1);
    }
  }

  /** Python's `ip in network`: same version and same leading bits. */
  predicate Contains(net: Network, ip: Ip)
    requires net.prefix <= MaxPrefix(net.ip.v6)
  {
    Pow2Positive(MaxPrefix(net.ip.v6) - net.prefix);
    var low := Pow2(MaxPrefix(net.ip.v6) - net.prefix);
    net.ip.v6 == ip.v6 && net.ip.bits / low == ip.bits / low
  }

  predicate Single(net: Network) { net.prefix == MaxPrefix(net.ip.v6) }

  function Net(ip: Ip): Network { Network(ip, MaxPrefix(ip.v6)) }

  /** A single-address network holds exactly its own address. */
  lemma SingleContains(net: Network, ip: Ip)
    requires Single(net)
    ensures Contains(net, ip) <==> net.ip == ip
  {
  }

  // ---- the cached map ----

  type Policies = map<Network, set<string>>

  function HostSet(hosts: seq<string>): set<string> { set h | h in hosts }

  /** What a valid document becomes in the proxy. */
  function Project(d: Document): Policies {
    map net | net in (set a | a in d :: Net(a)) :: HostSet(d[net.ip].hosts)
  }

  predicate AllSingle(p: Policies) {
    forall net :: net in p ==> Single(net)
  }

  /** The answer the policies ought to give. */
  function Lookup(p: Policies, source: Ip): Option<set<string>> {
    if Net(source) in p then Some(p[Net(source)]) else None
  }

  /** The scan of `hosts_for`, which meets the networks in an arbitrary order. Over
      single-address networks it is exact lookup. */
  method Scan(p: Policies, source: Ip) returns (r: Option<set<string>>)
    requires AllSingle(p)
    ensures r == Lookup(p, source)
  {
    var left := p.Keys;
    while left != {}
      invariant left <= p.Keys
      invariant forall net :: net in p.Keys - left ==> net.ip != source
      decreases left
    {
      var net :| net in left;
      SingleContains(net, source);
      if Contains(net, source) {
        return Some(p[net]);
      }
      left := left - {net};
    }
    return None;
  }

  lemma ProjectIs(d: Document, source: Ip)
    ensures AllSingle(Project(d))
    ensures forall net :: net in Project(d) ==> net.prefix == if net.ip.v6 then 128 else 32
    ensures Lookup(Project(d), source) == if source in d then Some(HostSet(d[source].hosts)) else None
  {
  }

  // ---- the store ----

  /** What the file system shows: a modification time and a document, or no file. `readable` is
      whether reading and validating the document succeeds. */
  datatype View = Missing | Present(stamp: int, document: Document, readable: bool)

  class SourcePolicyStore {
    var policies: Policies
    var stamp: Option<int>

    constructor ()
      ensures policies == map[] && stamp == None
    {
      policies, stamp := map[], None;
    }

    /** `statted` is the file when its stamp is taken, `read` when its text is. */
    method Reload(statted: View, read: View)
      modifies this
      ensures if statted.Missing? || old(stamp) == Some(statted.stamp) || read.Missing? || !read.readable
        then policies == old(policies) && stamp == old(stamp)
        else policies == Project(read.document) && stamp == Some(statted.stamp)
    {
      if statted.Missing? {
        return;
      }
      if stamp == Some(statted.stamp) {
        return;
      }
      if read.Missing? || !read.readable {
        return;
      }
      var parsed: Policies := map[];
      var left := read.document.Keys;
      while left != {}
        invariant left <= read.document.Keys
        invariant parsed.Keys == set a | a in read.document.Keys - left :: Net(a)
        invariant forall net :: net in parsed ==> parsed[net] == HostSet(read.document[net.ip].hosts)
        decreases left
      {
        var a :| a in left;
        parsed := parsed[Net(a) := HostSet(read.document[a].hosts)];
        left := left - {a};
      }
      assert parsed == Project(read.document);
      policies, stamp := parsed, Some(statted.stamp);
    }

    /** `source` is `None` when it does not parse as an address. */
    method HostsFor(source: Option<Ip>, statted: View, read: View) returns (r: Option<set<string>>)
      requires AllSingle(policies)
      modifies this
      ensures AllSingle(policies)
      ensures if statted.Missing? || old(stamp) == Some(statted.stamp) || read.Missing? || !read.readable
        then policies == old(policies) && stamp == old(stamp)
        else policies == Project(read.document) && stamp == Some(statted.stamp)
      ensures r == if source.Some? then Lookup(policies, source.value) else None
    {
      Reload(statted, read);
      if source.None? {
        return None;
      }
      r := Scan(policies, source.value);
    }
  }
}
