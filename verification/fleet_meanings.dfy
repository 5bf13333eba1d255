/** The lookups, origins, networks and ingress tags of labview/internal/fleet, each told by the fields of one service:
    which name, port, address or hostname it answers by, what an origin is when it is no hop, who is on a network, and
    which tag which field gives. */
module FleetMeanings {
  import opened Options
  import opened Text
  import opened Lists
  import opened Grouping
  import opened Vocabulary
  import opened Fleet
  import opened FleetIndex
  import opened Origins
  import opened Ingress
  import N = Networks

  // ---------------------------------------------------------------------------
  // What a service answers by
  // ---------------------------------------------------------------------------

  /** Two lookup keys read as one. */
  ghost predicate Same(written: string, asked: string) { Fold(written) == Fold(asked) && Fold(asked) != "" }

  ghost predicate Publishes(svc: Service, port: string) {
    || (exists x :: x in svc.ports && Same(x, port))
    || (svc.docker.Some? && exists x :: x in svc.docker.value.published && Same(x, port))
  }

  /** By its compose name, its container name, or the name the engine reported. */
  ghost predicate GoesBy(svc: Service, name: string) {
    Same(svc.name, name) || Same(svc.containerName, name) || (svc.docker.Some? && Same(svc.docker.value.name, name))
  }

  ghost predicate Holds(svc: Service, ip: string) { svc.docker.Some? && exists x :: x in svc.docker.value.ips && Same(x, ip) }

  /** On a tunnel route or a router. */
  ghost predicate Announces(svc: Service, host: string) {
    || (exists r :: r in svc.cloudflare && Same(r.hostname, host))
    || exists r :: r in svc.traefik && exists h :: h in r.hosts && Same(h, host)
  }

  lemma {:induction false} RouteHostsAre(routes: seq<TraefikRoute>, h: string)
    ensures h in RouteHosts(routes) <==> exists r :: r in routes && h in r.hosts
  {
    if routes != [] {
      SplitLast(routes);
      RouteHostsAre(routes[..|routes| - 1], h);
    }
  }

  lemma PortsMention(svc: Service, port: string)
    ensures Mentions(PublishedPorts(svc), Fold(port)) <==> Publishes(svc, port)
  {
    forall x ensures x in PublishedPorts(svc) <==> x in svc.ports || (svc.docker.Some? && x in svc.docker.value.published) {}
  }

  lemma NamesMention(svc: Service, name: string)
    ensures Mentions(DnsNames(svc), Fold(name)) <==> GoesBy(svc, name)
  {
    forall x ensures x in DnsNames(svc) <==> x == svc.name || x == svc.containerName || (svc.docker.Some? && x == svc.docker.value.name) {}
  }

  lemma HostsMention(svc: Service, host: string)
    ensures Mentions(Hostnames(svc), Fold(host)) <==> Announces(svc, host)
  {
    var tunnels := seq(|svc.cloudflare|, i requires 0 <= i < |svc.cloudflare| => svc.cloudflare[i].hostname);
    assert Hostnames(svc) == tunnels + RouteHosts(svc.traefik);
    forall r | r in svc.cloudflare ensures r.hostname in tunnels {
      var i :| 0 <= i < |svc.cloudflare| && svc.cloudflare[i] == r;
      assert tunnels[i] == r.hostname;
    }
    forall x ensures x in Hostnames(svc) <==> (exists r :: r in svc.cloudflare && r.hostname == x) || exists r :: r in svc.traefik && x in r.hosts {
      RouteHostsAre(svc.traefik, x);
    }
  }

  /** Each lookup finds exactly the services that answer by what was asked. */
  lemma LookupsMean(placed: seq<Placed>, asked: string, k: string)
    ensures var ix := IndexOf(placed);
      && (k in ByHostPort(ix, asked) <==> exists p :: p in placed && p.Key() == k && Publishes(p.svc, asked))
      && (k in ByName(ix, asked) <==> exists p :: p in placed && p.Key() == k && GoesBy(p.svc, asked))
      && (k in ByIP(ix, asked) <==> exists p :: p in placed && p.Key() == k && Holds(p.svc, asked))
      && (k in ByHostname(ix, asked) <==> exists p :: p in placed && p.Key() == k && Announces(p.svc, asked))
  {
    LookupsAgreeWithTheFleet(placed, asked, k);
    AddressLookupsAgree(placed, asked, k);
    forall p | p in placed
      ensures Mentions(PublishedPorts(p.svc), Fold(asked)) <==> Publishes(p.svc, asked)
      ensures Mentions(DnsNames(p.svc), Fold(asked)) <==> GoesBy(p.svc, asked)
      ensures Mentions(Hostnames(p.svc), Fold(asked)) <==> Announces(p.svc, asked)
    {
      PortsMention(p.svc, asked);
      NamesMention(p.svc, asked);
      HostsMention(p.svc, asked);
    }
  }

  ghost predicate AnnouncedBy(placed: seq<Placed>, host: string, k: string) {
    exists p :: p in placed && p.Key() == k && Announces(p.svc, host)
  }

  ghost predicate HeldBy(placed: seq<Placed>, ip: string, k: string) { exists p :: p in placed && p.Key() == k && Holds(p.svc, ip) }

  ghost predicate NamedBy(placed: seq<Placed>, name: string, k: string) { exists p :: p in placed && p.Key() == k && GoesBy(p.svc, name) }

  /** An address is answered by whoever announces its host; when nobody does, by whoever holds it as an address, or goes
      by it as a name; and never by a port. */
  lemma URLMeans(placed: seq<Placed>, a: Address, k: string)
    ensures k in ByURL(IndexOf(placed), a) <==>
      a.host != "" && (|| AnnouncedBy(placed, a.host, k)
                       || ((forall j :: !AnnouncedBy(placed, a.host, j))
                           && if a.isIP then HeldBy(placed, a.host, k) else NamedBy(placed, a.host, k)))
  {
    var hosts := ByHostname(IndexOf(placed), a.host);
    LookupsMean(placed, a.host, k);
    forall j ensures j in hosts <==> AnnouncedBy(placed, a.host, j) { LookupsMean(placed, a.host, j); }
    assert hosts != [] ==> hosts[0] in hosts;
  }

  // ---------------------------------------------------------------------------
  // Origins
  // ---------------------------------------------------------------------------

  /** What an origin is when it names no other service: the container itself by name, or itself by a host port; and
      whatever it is, the target carries the address. */
  lemma SelfMeans(placed: seq<Placed>, ats: seq<N.Attachment>, external: set<string>, key: string, svc: Service, a: Address)
    ensures var (target, notes) := ResolveOrigin(IndexOf(placed), N.IndexOf(ats, external), key, svc, a);
      && target.address == a
      && (target.kind.SelfNetwork? <==>
            && a.host != "" && !a.isIP
            && (|| Fold(svc.name) == a.host || Fold(svc.containerName) == a.host
                || (svc.docker.Some? && Fold(svc.docker.value.name) == a.host)))
      && (target.kind.SelfHostPort? <==>
            a.host != "" && a.isIP && a.port != "" && exists p :: p in placed && p.Key() == key && Publishes(p.svc, a.port))
  {
    LookupsMean(placed, a.port, key);
  }

  /** Origin resolution touches a service's routes and notes alone, and of a route its origin alone: a route that
      declares an origin gets what the address resolves to, one that declares none keeps what it had. */
  lemma OnlyOriginsChange(ix: Index, nets: N.Index, p: Placed)
    ensures var q := Resolved(ix, nets, p);
      && q.Key() == p.Key() && q == p.(svc := p.svc.(cloudflare := q.svc.cloudflare, notes := q.svc.notes))
      && |q.svc.cloudflare| == |p.svc.cloudflare|
      && forall i :: 0 <= i < |p.svc.cloudflare| ==>
           var was, now := p.svc.cloudflare[i], q.svc.cloudflare[i];
           && now.(origin := was.origin) == was
           && (was.service == "" ==> now.origin == was.origin)
           && (was.service != "" ==> now.origin == Some(ResolveOrigin(ix, nets, p.Key(), p.svc, was.address).0))
  {
    RoutesAre(ix, nets, p.Key(), p.svc, |p.svc.cloudflare|);
  }

  function NotesOf(ix: Index, nets: N.Index, key: string, svc: Service): CloudRoute -> seq<Note> {
    (r: CloudRoute) => RouteNotes(ix, nets, key, svc, r)
  }

  lemma {:induction false} NotesAreMapped(ix: Index, nets: N.Index, key: string, svc: Service, n: nat)
    requires n <= |svc.cloudflare|
    ensures NotesUpTo(ix, nets, key, svc, n) == FlatMap(svc.cloudflare[..n], NotesOf(ix, nets, key, svc))
  {
    if n > 0 {
      NotesAreMapped(ix, nets, key, svc, n - 1);
      TakeMore(svc.cloudflare, n - 1);
    }
  }

  ghost predicate LeavesNote(ix: Index, nets: N.Index, key: string, svc: Service, r: CloudRoute, note: Note) {
    && r.service != "" && note == OriginUnresolved(r.address)
    && ResolveOrigin(ix, nets, key, svc, r.address).0.kind.Unresolved?
  }

  lemma RouteLeavesNote(ix: Index, nets: N.Index, key: string, svc: Service, r: CloudRoute, note: Note)
    ensures note in NotesOf(ix, nets, key, svc)(r) <==> LeavesNote(ix, nets, key, svc, r, note)
  {
    TableIs(ix, nets, key, svc, r.address);
  }

  /** The notes written before stand, and one follows for every declared origin left unresolved. */
  lemma UnresolvedIsNoted(ix: Index, nets: N.Index, p: Placed, note: Note)
    ensures var q := Resolved(ix, nets, p);
      && p.svc.notes <= q.svc.notes
      && (note in q.svc.notes[|p.svc.notes|..] <==>
            exists r :: r in p.svc.cloudflare && LeavesNote(ix, nets, p.Key(), p.svc, r, note))
  {
    var rs, key := p.svc.cloudflare, p.Key();
    NotesAreMapped(ix, nets, key, p.svc, |rs|);
    TakeAll(rs);
    FlatMapHas(rs, NotesOf(ix, nets, key, p.svc), note);
    forall r | r in rs ensures note in NotesOf(ix, nets, key, p.svc)(r) <==> LeavesNote(ix, nets, key, p.svc, r, note) {
      RouteLeavesNote(ix, nets, key, p.svc, r, note);
    }
  }

  // ---------------------------------------------------------------------------
  // Networks
  // ---------------------------------------------------------------------------

  /** A service is attached to the networks it names, the empty name apart. */
  lemma AttachedMeans(placed: seq<Placed>, key: string, name: string)
    ensures N.On(N.Attachments(placed), key, name) <==> exists p :: p in placed && p.Key() == key && name in p.svc.networks && name != ""
  {
    if a :| a in N.Attachments(placed) && a.key == key && a.network == name {
      FlatMapHas(placed, N.AttachmentsOf, a);
      var p :| p in placed && a in N.AttachmentsOf(p);
      N.AttachmentsAre(p, p.svc.networks, a);
    }
    if p :| p in placed && p.Key() == key && name in p.svc.networks && name != "" {
      var a := N.Attachment(p.stackId, p.Key(), name);
      N.AttachmentsAre(p, p.svc.networks, a);
      FlatMapHas(placed, N.AttachmentsOf, a);
    }
  }

  ghost predicate StackOn(ats: seq<N.Attachment>, stackId: string, name: string) {
    exists a :: a in ats && a.stackId == stackId && a.network == name
  }

  lemma StacksAre(ats: seq<N.Attachment>, name: string, stackId: string)
    ensures stackId in Get(GroupBy(N.ByStack(ats)), name) <==> StackOn(ats, stackId, name)
    ensures Distinct(Get(GroupBy(N.ByStack(ats)), name))
  {
    LookupHas(N.ByStack(ats), name);
    if a :| a in ats && a.stackId == stackId && a.network == name {
      var i :| 0 <= i < |ats| && ats[i] == a;
      assert N.ByStack(ats)[i] == (name, stackId);
    }
    if (name, stackId) in N.ByStack(ats) {
      var i :| 0 <= i < |ats| && N.ByStack(ats)[i] == (name, stackId);
      assert ats[i] in ats;
    }
  }

  lemma TwoOrMore<T(!new)>(s: seq<T>)
    requires Distinct(s)
    ensures |s| >= 2 <==> exists x, y :: x in s && y in s && x != y
  {
    if |s| >= 2 {
      assert s[0] in s && s[1] in s;
    }
  }

  lemma MembersAre(ats: seq<N.Attachment>, external: set<string>, name: string)
    requires name in N.IndexOf(ats, external).byName
    ensures var ms := N.IndexOf(ats, external).byName[name].members;
      ms != [] && Distinct(ms) && forall k :: k in ms <==> N.On(ats, k, name)
  {
    forall k ensures k in N.IndexOf(ats, external).byName[name].members <==> N.On(ats, k, name) {
      N.IndexAgreesBothWays(ats, external, k, name);
    }
    N.IndexAgreesBothWays(ats, external, "", name);
    SomebodyIsOn(ats, external, name);
  }

  lemma StacksAllAre(ats: seq<N.Attachment>, external: set<string>, name: string)
    requires name in N.IndexOf(ats, external).byName
    ensures var ss := N.IndexOf(ats, external).byName[name].stacks; Distinct(ss) && forall k :: k in ss <==> StackOn(ats, k, name)
  {
    forall k ensures k in N.IndexOf(ats, external).byName[name].stacks <==> StackOn(ats, k, name) { StacksAre(ats, name, k); }
    StacksAre(ats, name, "");
  }

  /** What a network is said to be: external when a stack declares it so, connecting when two services are on it, across
      stacks when two stacks have a service on it, and one service's alone when it is neither external nor connecting. */
  lemma NetworkMeans(ats: seq<N.Attachment>, external: set<string>, name: string)
    requires name in N.IndexOf(ats, external).byName
    ensures var net := N.IndexOf(ats, external).byName[name];
      && (net.external <==> name in external)
      && (net.Connecting() <==> exists a, b :: a != b && N.On(ats, a, name) && N.On(ats, b, name))
      && (net.CrossStack() <==> exists a, b :: a != b && StackOn(ats, a, name) && StackOn(ats, b, name))
      && (net.SoloLocal() <==> name !in external && forall a, b :: N.On(ats, a, name) && N.On(ats, b, name) ==> a == b)
  {
    MembersAre(ats, external, name);
    StacksAllAre(ats, external, name);
    TwoOrMore(N.IndexOf(ats, external).byName[name].members);
    TwoOrMore(N.IndexOf(ats, external).byName[name].stacks);
  }

  lemma SomebodyIsOn(ats: seq<N.Attachment>, external: set<string>, name: string)
    requires name in N.IndexOf(ats, external).byName
    ensures N.IndexOf(ats, external).byName[name].members != []
  {
    var i :| 0 <= i < |ats| && N.Names(ats)[i] == name;
    assert ats[i] in ats && N.On(ats, ats[i].key, name);
    N.IndexAgreesBothWays(ats, external, ats[i].key, name);
  }

  lemma {:induction false} SharedFromPlace(own: seq<string>, others: seq<string>, i: nat, j: nat) returns (a: nat, b: nat)
    requires i < j < |N.SharedFrom(own, others)|
    ensures a < b < |own| && own[a] == N.SharedFrom(own, others)[i] && own[b] == N.SharedFrom(own, others)[j]
  {
    var n := |own| - 1;
    var before := N.SharedFrom(own[..n], others);
    if j < |before| {
      a, b := SharedFromPlace(own[..n], others, i, j);
    } else {
      N.SharedFromHas(own[..n], others, before[i]);
      a :| 0 <= a < n && own[..n][a] == before[i];
      b := n;
    }
  }

  /** The networks a pair shares come in the order in which the first of the two names them. */
  lemma SharedKeepsOrder(idx: N.Index, x: string, y: string, i: nat, j: nat) returns (a: nat, b: nat)
    requires i < j < |N.Shared(idx, x, y)|
    ensures a < b < |N.Of(idx, x)| && N.Of(idx, x)[a] == N.Shared(idx, x, y)[i] && N.Of(idx, x)[b] == N.Shared(idx, x, y)[j]
  {
    a, b := SharedFromPlace(N.Of(idx, x), N.Of(idx, y), i, j);
  }

  // ---------------------------------------------------------------------------
  // Ingress
  // ---------------------------------------------------------------------------

  lemma EvidenceIs(svc: Service, neighboured: bool, k: IngressKind)
    ensures k in Evidence(svc, neighboured) <==>
      || (k.Public? && HasPublic(svc)) || (k.Traefik? && HasRouter(svc)) || (k.Lan? && |svc.ports| > 0)
      || (k.Internal? && (|svc.expose| > 0 || neighboured))
  {
    var a, b := (if HasPublic(svc) then [Public] else []), (if HasRouter(svc) then [Traefik] else []);
    var c, d := (if |svc.ports| > 0 then [Lan] else []), (if |svc.expose| > 0 || neighboured then [Internal] else []);
    assert k in Evidence(svc, neighboured) <==> k in a || k in b || k in c || k in d;
  }

  /** Which field gives which tag: a tunnel hostname is public, a router with hosts or a rule is behind Traefik, a
      published port is on the LAN, and each of the three is tagged whatever else is. */
  lemma EachTagHasItsSource(svc: Service, neighboured: bool)
    ensures var s := IngressSet(Evidence(svc, neighboured));
      && (Public in s <==> exists r :: r in svc.cloudflare && r.hostname != "")
      && (Traefik in s <==> exists r :: r in svc.traefik && (r.hosts != [] || r.rule != ""))
      && (Lan in s <==> svc.ports != [])
  {
    SetSaysOneThing(Evidence(svc, neighboured));
    EvidenceIs(svc, neighboured, Public);
    EvidenceIs(svc, neighboured, Traefik);
    EvidenceIs(svc, neighboured, Lan);
  }

  ghost predicate Climbs(s: seq<IngressKind>) {
    forall i, j :: 0 <= i < j < |s| ==> Exposure(s[i]) < Exposure(s[j])
  }

  ghost predicate Under(s: seq<IngressKind>, k: IngressKind) { forall x :: x in s ==> Exposure(x) < Exposure(k) }

  lemma ClimbsOn(s: seq<IngressKind>, k: IngressKind)
    requires Climbs(s) && Under(s, k)
    ensures Climbs(s + [k])
  {
    assert forall i :: 0 <= i < |s| ==> s[i] in s;
  }

  lemma ClimbsBefore(s: seq<IngressKind>)
    requires Climbs(s) && s != []
    ensures Climbs(s[..|s| - 1]) && Under(s[..|s| - 1], s[|s| - 1])
  {
  }

  lemma {:induction false} PickIsIn(order: seq<IngressKind>, seen: set<IngressKind>, k: IngressKind)
    requires k in Pick(order, seen)
    ensures k in order
  {
    var n := |order| - 1;
    if k in Pick(order[..n], seen) {
      PickIsIn(order[..n], seen, k);
    }
  }

  lemma {:induction false} PickClimbs(order: seq<IngressKind>, seen: set<IngressKind>)
    requires Climbs(order)
    ensures Climbs(Pick(order, seen))
  {
    if order != [] {
      var n := |order| - 1;
      var before := Pick(order[..n], seen);
      ClimbsBefore(order);
      PickClimbs(order[..n], seen);
      forall x | x in before ensures x in order[..n] { PickIsIn(order[..n], seen, x); }
      ClimbsOn(before, order[n]);
    }
  }

  /** A set is written from the most exposed kind to the least. */
  lemma MostExposedFirst(kinds: seq<IngressKind>)
    ensures Climbs(IngressSet(kinds))
  {
    var seen := set k | k in kinds && !k.Blank?;
    assert forall i :: 0 <= i < 5 ==> Exposure(INGRESS_KINDS[i]) == i;
    PickClimbs(INGRESS_KINDS, if External(kinds) then seen - {Internal, NoIngress} else seen);
  }
}
