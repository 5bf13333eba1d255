/** The lookups of labview/internal/fleet/index.go: every name, port, address and hostname to the services that
    answer to it, and a service name inside one stack. */
module FleetIndex {
  import opened Options
  import opened Text
  import opened Lists
  import opened Grouping
  import opened Fleet
  import N = Networks

  datatype Index = Index(
    placed: seq<Placed>, hostPorts: map<string, seq<string>>, dnsNames: map<string, seq<string>>,
    ips: map<string, seq<string>>, hostnames: map<string, seq<string>>, inStack: map<(string, string), string>)

  type Pairs = seq<(string, string)>

  function FoldKeys(lookups: seq<string>): (r: seq<string>)
    ensures |r| == |lookups| && forall i :: 0 <= i < |lookups| ==> r[i] == Fold(lookups[i])
  {
    seq(|lookups|, i requires 0 <= i < |lookups| => Fold(lookups[i]))
  }

  /** One key recorded under each lookup, empties skipped. */
  function Recording(lookups: seq<string>, key: string): Pairs { KeyPairs(FoldKeys(lookups), "", key) }

  function DnsNames(svc: Service): seq<string> {
    [svc.name, svc.containerName] + (if svc.docker.Some? then [svc.docker.value.name] else [])
  }

  function PublishedPorts(svc: Service): seq<string> {
    svc.ports + (if svc.docker.Some? then svc.docker.value.published else [])
  }

  function IPs(svc: Service): seq<string> { if svc.docker.Some? then svc.docker.value.ips else [] }

  function RouteHosts(routes: seq<TraefikRoute>): seq<string> {
    if routes == [] then [] else RouteHosts(routes[..|routes| - 1]) + routes[|routes| - 1].hosts
  }

  function Hostnames(svc: Service): seq<string> {
    seq(|svc.cloudflare|, i requires 0 <= i < |svc.cloudflare| => svc.cloudflare[i].hostname) + RouteHosts(svc.traefik)
  }

  function DnsPairs(p: Placed): Pairs { Recording(DnsNames(p.svc), p.Key()) }
  function PortPairs(p: Placed): Pairs { Recording(PublishedPorts(p.svc), p.Key()) }
  function IpPairs(p: Placed): Pairs { Recording(IPs(p.svc), p.Key()) }
  function HostPairs(p: Placed): Pairs { Recording(Hostnames(p.svc), p.Key()) }

  function StackNames(placed: seq<Placed>): map<(string, string), string> {
    if placed == [] then map[] else
      var p := placed[|placed| - 1];
      StackNames(placed[..|placed| - 1])[(p.stackId, p.svc.name) := p.Key()]
  }

  /** What the index holds: for each lookup, the services recorded under it in scan order. */
  function IndexOf(placed: seq<Placed>): Index {
    Index(placed, GroupBy(FlatMap(placed, PortPairs)), GroupBy(FlatMap(placed, DnsPairs)),
          GroupBy(FlatMap(placed, IpPairs)), GroupBy(FlatMap(placed, HostPairs)), StackNames(placed))
  }

  method NewIndex(fleet: seq<Stack>) returns (ix: Index)
    ensures ix == IndexOf(Services(fleet))
  {
    var placed := Services(fleet);
    ix := Index([], map[], map[], map[], map[], map[]);
    var i := 0;
    while i < |placed|
      invariant 0 <= i <= |placed| && ix == IndexOf(placed[..i])
    {
      TakeMore(placed, i);
      ix := AddService(ix, placed[..i], placed[i]);
      i := i + 1;
    }
    TakeAll(placed);
  }

  /** The body of that loop: one service under each of its lookups. */
  method AddService(ix: Index, ghost before: seq<Placed>, p: Placed) returns (out: Index)
    requires ix == IndexOf(before)
    ensures out == IndexOf(before + [p])
  {
    var ports := AddAll(ix.hostPorts, PublishedPorts(p.svc), p.Key());
    var dns := AddAll(ix.dnsNames, DnsNames(p.svc), p.Key());
    var ips := AddAll(ix.ips, IPs(p.svc), p.Key());
    var hosts := AddAll(ix.hostnames, Hostnames(p.svc), p.Key());
    RecordOneMore(before, p, PortPairs, FoldKeys(PublishedPorts(p.svc)), "", p.Key());
    RecordOneMore(before, p, DnsPairs, FoldKeys(DnsNames(p.svc)), "", p.Key());
    RecordOneMore(before, p, IpPairs, FoldKeys(IPs(p.svc)), "", p.Key());
    RecordOneMore(before, p, HostPairs, FoldKeys(Hostnames(p.svc)), "", p.Key());
    assert (before + [p])[..|before|] == before;
    out := Index(ix.placed + [p], ports, dns, ips, hosts, ix.inStack[(p.stackId, p.svc.name) := p.Key()]);
  }

  /** `add`, for every lookup of one service. */
  method AddAll(m: map<string, seq<string>>, lookups: seq<string>, key: string) returns (out: map<string, seq<string>>)
    ensures out == RecordAll(m, FoldKeys(lookups), "", key)
  {
    out := m;
    ghost var ks := FoldKeys(lookups);
    var i := 0;
    while i < |lookups|
      invariant 0 <= i <= |lookups| && out == RecordAll(m, ks[..i], "", key)
    {
      RecordAllStep(m, ks, "", key, i);
      var lookup := Fold(lookups[i]);
      if lookup != "" {
        out := Record(out, lookup, key);
      }
      i := i + 1;
    }
    assert ks[..i] == ks;
  }

  function ByHostPort(ix: Index, port: string): seq<string> { Get(ix.hostPorts, Fold(port)) }
  function ByName(ix: Index, name: string): seq<string> { Get(ix.dnsNames, Fold(name)) }
  function ByIP(ix: Index, ip: string): seq<string> { Get(ix.ips, Fold(ip)) }
  function ByHostname(ix: Index, host: string): seq<string> { Get(ix.hostnames, Fold(host)) }

  /** A declared hostname first, then an IP or a container name as the address itself says; never a port. */
  function ByURL(ix: Index, a: Address): seq<string> {
    if a.host == "" then []
    else if |ByHostname(ix, a.host)| > 0 then ByHostname(ix, a.host)
    else if a.isIP then ByIP(ix, a.host)
    else ByName(ix, a.host)
  }

  /** The one service an address reaches, or none. */
  function GateService(ix: Index, a: Address): Option<string> {
    if |ByURL(ix, a)| == 1 then Some(ByURL(ix, a)[0]) else None
  }

  /** The candidates that share a network with `from`, in order. */
  function Reachable(nets: N.Index, from: string, candidates: seq<string>): seq<string> {
    if candidates == [] then [] else
      var c := candidates[|candidates| - 1];
      Reachable(nets, from, candidates[..|candidates| - 1]) + (if c != from && N.SharesAny(nets, from, c) then [c] else [])
  }

  // ---------------------------------------------------------------------------
  // The index against a naive scan
  // ---------------------------------------------------------------------------

  ghost predicate Mentions(lookups: seq<string>, folded: string) {
    folded != "" && exists l :: l in lookups && Fold(l) == folded
  }

  lemma RecordingHas(lookups: seq<string>, key: string, l: string, k: string)
    ensures (l, k) in Recording(lookups, key) <==> k == key && Mentions(lookups, l)
  {
    var ks := FoldKeys(lookups);
    KeyPairsHave(ks, "", key, l, k);
    if n :| n in lookups && Fold(n) == l {
      var i :| 0 <= i < |lookups| && lookups[i] == n;
      assert ks[i] == l;
    }
  }

  /** Each lookup returns, without repeats, exactly the services a scan of the fleet finds answering to it. */
  lemma LookupsAgreeWithTheFleet(placed: seq<Placed>, l: string, k: string)
    ensures var ix := IndexOf(placed);
      && Distinct(ByHostPort(ix, l)) && Distinct(ByName(ix, l))
      && (k in ByHostPort(ix, l) <==> exists p :: p in placed && p.Key() == k && Mentions(PublishedPorts(p.svc), Fold(l)))
      && (k in ByName(ix, l) <==> exists p :: p in placed && p.Key() == k && Mentions(DnsNames(p.svc), Fold(l)))
  {
    LookupHas(FlatMap(placed, PortPairs), Fold(l));
    LookupHas(FlatMap(placed, DnsPairs), Fold(l));
    FlatMapHas(placed, PortPairs, (Fold(l), k));
    FlatMapHas(placed, DnsPairs, (Fold(l), k));
    forall p | p in placed
      ensures ((Fold(l), k) in PortPairs(p) <==> p.Key() == k && Mentions(PublishedPorts(p.svc), Fold(l)))
      ensures ((Fold(l), k) in DnsPairs(p) <==> p.Key() == k && Mentions(DnsNames(p.svc), Fold(l)))
    {
      RecordingHas(PublishedPorts(p.svc), p.Key(), Fold(l), k);
      RecordingHas(DnsNames(p.svc), p.Key(), Fold(l), k);
    }
  }

  /** And so do the hostname and address lookups. */
  lemma AddressLookupsAgree(placed: seq<Placed>, l: string, k: string)
    ensures var ix := IndexOf(placed);
      && Distinct(ByHostname(ix, l)) && Distinct(ByIP(ix, l))
      && (k in ByHostname(ix, l) <==> exists p :: p in placed && p.Key() == k && Mentions(Hostnames(p.svc), Fold(l)))
      && (k in ByIP(ix, l) <==> exists p :: p in placed && p.Key() == k && Mentions(IPs(p.svc), Fold(l)))
  {
    LookupHas(FlatMap(placed, HostPairs), Fold(l));
    LookupHas(FlatMap(placed, IpPairs), Fold(l));
    FlatMapHas(placed, HostPairs, (Fold(l), k));
    FlatMapHas(placed, IpPairs, (Fold(l), k));
    forall p | p in placed
      ensures ((Fold(l), k) in HostPairs(p) <==> p.Key() == k && Mentions(Hostnames(p.svc), Fold(l)))
      ensures ((Fold(l), k) in IpPairs(p) <==> p.Key() == k && Mentions(IPs(p.svc), Fold(l)))
    {
      RecordingHas(Hostnames(p.svc), p.Key(), Fold(l), k);
      RecordingHas(IPs(p.svc), p.Key(), Fold(l), k);
    }
  }

  ghost predicate Hosts(placed: seq<Placed>, l: string, k: string) {
    exists p :: p in placed && p.Key() == k && Mentions(Hostnames(p.svc), Fold(l))
  }

  ghost predicate Bears(placed: seq<Placed>, a: Address, k: string) {
    exists p :: p in placed && p.Key() == k && Mentions(if a.isIP then IPs(p.svc) else DnsNames(p.svc), Fold(a.host))
  }

  /** The service answers the address: by a hostname it declares when any service declares it, and otherwise by an
      address of its container or by name, as the address itself says. */
  ghost predicate Reached(placed: seq<Placed>, a: Address, k: string) {
    a.host != "" && if Hosted(placed, a.host) then Hosts(placed, a.host, k) else Bears(placed, a, k)
  }

  ghost predicate Hosted(placed: seq<Placed>, l: string) { exists k :: Hosts(placed, l, k) }

  lemma SomeHost(placed: seq<Placed>, l: string)
    ensures ByHostname(IndexOf(placed), l) != [] <==> Hosted(placed, l)
  {
    var hosts := ByHostname(IndexOf(placed), l);
    if hosts != [] {
      AddressLookupsAgree(placed, l, hosts[0]);
      assert Hosts(placed, l, hosts[0]);
    }
    if Hosted(placed, l) {
      var k :| Hosts(placed, l, k);
      AddressLookupsAgree(placed, l, k);
    }
  }

  function Bearers(ix: Index, a: Address): seq<string> { if a.isIP then ByIP(ix, a.host) else ByName(ix, a.host) }

  lemma BearerIs(placed: seq<Placed>, a: Address, k: string)
    ensures Distinct(Bearers(IndexOf(placed), a)) && (k in Bearers(IndexOf(placed), a) <==> Bears(placed, a, k))
  {
    if a.isIP {
      AddressLookupsAgree(placed, a.host, k);
    } else {
      LookupsAgreeWithTheFleet(placed, a.host, k);
    }
  }

  lemma URLPicks(ix: Index, a: Address)
    ensures ByURL(ix, a) == if a.host == "" then [] else if ByHostname(ix, a.host) != [] then ByHostname(ix, a.host) else Bearers(ix, a)
  {
  }

  lemma URLIsReached(placed: seq<Placed>, a: Address, k: string)
    ensures Distinct(ByURL(IndexOf(placed), a)) && (k in ByURL(IndexOf(placed), a) <==> Reached(placed, a, k))
  {
    URLPicks(IndexOf(placed), a);
    SomeHost(placed, a.host);
    BearerIs(placed, a, k);
    AddressLookupsAgree(placed, a.host, k);
  }

  lemma GateOf(ix: Index, a: Address, k: string)
    requires Distinct(ByURL(ix, a))
    ensures GateService(ix, a) == Some(k) <==> k in ByURL(ix, a) && forall j :: j in ByURL(ix, a) ==> j == k
  {
    SingleIs(ByURL(ix, a), k);
  }

  /** An address has a gate service exactly when one service, and no other, answers it. */
  lemma GateIsTheOnlyOne(placed: seq<Placed>, a: Address, k: string)
    ensures GateService(IndexOf(placed), a) == Some(k) <==> Reached(placed, a, k) && forall j :: Reached(placed, a, j) ==> j == k
  {
    URLIsReached(placed, a, k);
    forall j ensures j in ByURL(IndexOf(placed), a) <==> Reached(placed, a, j) { URLIsReached(placed, a, j); }
    GateOf(IndexOf(placed), a, k);
  }

  /** A name inside a stack resolves exactly when the stack has a service of that name. */
  lemma {:induction false} InStackIs(placed: seq<Placed>, stackId: string, name: string)
    ensures var m := StackNames(placed);
      && ((stackId, name) in m <==> exists p :: p in placed && p.stackId == stackId && p.svc.name == name)
      && ((stackId, name) in m ==> m[(stackId, name)] == ServiceKey(stackId, name))
  {
    if placed != [] {
      SplitLast(placed);
      InStackIs(placed[..|placed| - 1], stackId, name);
    }
  }

  lemma {:induction false} ReachableIs(nets: N.Index, from: string, candidates: seq<string>)
    ensures forall c :: c in Reachable(nets, from, candidates) <==> c in candidates && c != from && N.SharesAny(nets, from, c)
    ensures Distinct(candidates) ==> Distinct(Reachable(nets, from, candidates))
  {
    if candidates != [] {
      SplitLast(candidates);
      ReachableIs(nets, from, candidates[..|candidates| - 1]);
    }
  }
}
