/** The rest of the graph, record by record (labview/internal/fleet/graph.go): what every node says, and what the
    membership, dependency and volume edges and the edges into the hostnames say, told by the scan alone. */
module GraphContents {
  import opened Options
  import opened Lists
  import opened Vocabulary
  import opened Fleet
  import opened Depends
  import opened Graphs
  import opened GraphLaws
  import opened GraphTheorems
  import opened Ordering
  import Nets = Networks
  import Ingress
  import RoutePaths
  import DependencyLaws
  import GraphAuth

  // ---------------------------------------------------------------------------
  // What a node may say
  // ---------------------------------------------------------------------------

  /** The most exposed kind of the set, or `none` when it says nothing. */
  ghost predicate Foremost(kinds: seq<IngressKind>, k: IngressKind) {
    && (forall j :: j in kinds && !j.Blank? ==> Ingress.Exposure(k) <= Ingress.Exposure(j))
    && (k in kinds || k.NoIngress?) && !k.Blank?
  }

  ghost predicate ServiceSays(inp: Input, p: Placed, n: Node) {
    && p in inp.Placed() && n.id == "svc:" + p.Key() && n.caption == p.svc.name && n.kind.ServiceNode? && n.detail.OfService?
    && n.detail.stack == p.stackId && n.detail.auth == p.svc.auth && Foremost(p.svc.ingress, n.detail.ingress)
    && (n.detail.running.Some? <==> p.svc.docker.Some?)
    && (p.svc.docker.Some? ==> n.detail.running == Some(p.svc.docker.value.running))
    && (n.detail.proxy <==> p.Key() in inp.proxies)
  }

  /** A network that is declared external or that more or fewer than one service is on. */
  ghost predicate NetworkSays(inp: Input, name: string, n: Node) {
    && name in inp.nets.order && name in inp.nets.byName
    && var net := inp.nets.byName[name];
    && (net.external || |net.members| != 1)
    && n == Node("net:" + name, name, NetworkNode, OfNetwork(net.external, |net.members|, |net.stacks|))
  }

  ghost predicate VolumeSays(inp: Input, stack: Stack, name: string, n: Node) {
    stack in inp.stacks && name in stack.volumes && n == Node("vol:" + name, name, VolumeNode, NoMore)
  }

  ghost predicate Beyond(n: Node, id: string, caption: string) { n == Node(id, caption, ExternalNode, NoMore) }

  /** Some route of the service answers on the hostname. */
  ghost predicate Serves(p: Placed, host: string) {
    || (host != "" && exists r :: r in p.svc.cloudflare && r.hostname == host)
    || exists r :: r in p.svc.traefik && host in r.hosts
  }

  ghost predicate Served(inp: Input, host: string) { exists p :: p in inp.Placed() && Serves(p, host) }

  ghost predicate HostSays(inp: Input, host: string, n: Node) {
    Served(inp, host) && (Beyond(n, "outside", "outside") || Beyond(n, "host:" + host, host))
  }

  ghost predicate OfProvider(p: Provider, n: Node) {
    Beyond(n, "provider:" + p.name, p.name) || exists o :: o in p.outposts && Beyond(n, "outpost:" + o, o)
  }

  ghost predicate OfApplication(app: Application, n: Node) {
    Beyond(n, "app:" + app.slug, app.name) || exists p :: p in app.providers && OfProvider(p, n)
  }

  ghost predicate IdentitySays(inp: Input, app: Application, n: Node) { GraphAuth.Shown(inp, app) && OfApplication(app, n) }

  ghost predicate RouterSays(inp: Input, r: (string, string), n: Node) {
    r in inp.unmatchedRouters && Beyond(n, "router:" + r.0 + "@" + r.1, r.0)
  }

  ghost predicate SomeService(inp: Input, n: Node) { exists p :: ServiceSays(inp, p, n) }
  ghost predicate SomeNetwork(inp: Input, n: Node) { exists name :: NetworkSays(inp, name, n) }
  ghost predicate SomeVolume(inp: Input, n: Node) { exists stack, name :: VolumeSays(inp, stack, name, n) }
  ghost predicate SomeHost(inp: Input, n: Node) { exists host :: HostSays(inp, host, n) }
  ghost predicate SomeIdentity(inp: Input, n: Node) { exists app :: IdentitySays(inp, app, n) }
  ghost predicate SomeRouter(inp: Input, n: Node) { exists r :: RouterSays(inp, r, n) }

  // ---------------------------------------------------------------------------
  // The nodes emitted
  // ---------------------------------------------------------------------------

  lemma WinnerIs(kinds: seq<IngressKind>, k: IngressKind)
    ensures k == Winner(kinds) <==> Foremost(kinds, k)
  {
  }

  lemma ServiceEmits(inp: Input, p: Placed, n: Node)
    requires p in inp.Placed()
    ensures N(n) in ServiceItems(inp)(p) <==> ServiceSays(inp, p, n)
  {
    WinnerIs(p.svc.ingress, Winner(p.svc.ingress));
    if ServiceSays(inp, p, n) {
      WinnerIs(p.svc.ingress, n.detail.ingress);
    }
  }

  lemma ServicesEmit(inp: Input, n: Node)
    ensures N(n) in FlatMap(inp.Placed(), ServiceItems(inp)) <==> SomeService(inp, n)
  {
    FlatMapHas(inp.Placed(), ServiceItems(inp), N(n));
    forall p | p in inp.Placed() ensures N(n) in ServiceItems(inp)(p) <==> ServiceSays(inp, p, n) { ServiceEmits(inp, p, n); }
  }

  lemma NetworksEmit(inp: Input, n: Node)
    requires WellFed(inp)
    ensures N(n) in FlatMap(inp.nets.order, NetworkItems(inp.nets)) <==> SomeNetwork(inp, n)
  {
    FlatMapHas(inp.nets.order, NetworkItems(inp.nets), N(n));
    forall name | name in inp.nets.order ensures N(n) in NetworkItems(inp.nets)(name) <==> NetworkSays(inp, name, n) {}
  }

  lemma VolumesEmit(inp: Input, n: Node)
    ensures N(n) in FlatMap(inp.stacks, StackVolumeItems()) <==> SomeVolume(inp, n)
  {
    FlatMapHas(inp.stacks, StackVolumeItems(), N(n));
    forall stack | stack in inp.stacks
      ensures N(n) in StackVolumeItems()(stack) <==> exists name :: VolumeSays(inp, stack, name, n)
    {
      FlatMapHas(stack.volumes, VolumeItems(), N(n));
      forall name | name in stack.volumes ensures N(n) in VolumeItems()(name) <==> VolumeSays(inp, stack, name, n) {}
    }
  }

  ghost predicate AtHost(host: string, n: Node) { Beyond(n, "outside", "outside") || Beyond(n, "host:" + host, host) }

  lemma HostnameEmits(host: string, n: Node)
    ensures N(n) in HostnameItems(host) <==> AtHost(host, n)
  {
  }

  lemma CloudEmits(key: string, r: CloudRoute, n: Node)
    ensures N(n) in CloudItems(key)(r) <==> r.hostname != "" && AtHost(r.hostname, n)
  {
    HostnameEmits(r.hostname, n);
  }

  lemma RouterEmits(key: string, r: TraefikRoute, n: Node)
    ensures N(n) in RouterItems(key)(r) <==> exists h :: h in r.hosts && AtHost(h, n)
  {
    FlatMapHas(r.hosts, RouterHostItems(key, r.router), N(n));
    forall h | h in r.hosts ensures N(n) in RouterHostItems(key, r.router)(h) <==> AtHost(h, n) { HostnameEmits(h, n); }
  }

  lemma ServiceHostsEmit(p: Placed, n: Node)
    ensures N(n) in ServiceIngresses()(p) <==> exists h :: Serves(p, h) && AtHost(h, n)
  {
    FlatMapHas(p.svc.cloudflare, CloudItems(p.Key()), N(n));
    FlatMapHas(p.svc.traefik, RouterItems(p.Key()), N(n));
    forall r | r in p.svc.cloudflare ensures N(n) in CloudItems(p.Key())(r) <==> r.hostname != "" && AtHost(r.hostname, n) {
      CloudEmits(p.Key(), r, n);
    }
    forall r | r in p.svc.traefik ensures N(n) in RouterItems(p.Key())(r) <==> exists h :: h in r.hosts && AtHost(h, n) {
      RouterEmits(p.Key(), r, n);
    }
  }

  lemma HostsEmit(inp: Input, n: Node)
    ensures N(n) in FlatMap(inp.Placed(), ServiceIngresses()) <==> SomeHost(inp, n)
  {
    FlatMapHas(inp.Placed(), ServiceIngresses(), N(n));
    forall p | p in inp.Placed() ensures N(n) in ServiceIngresses()(p) <==> exists h :: Serves(p, h) && AtHost(h, n) {
      ServiceHostsEmit(p, n);
    }
    if host :| HostSays(inp, host, n) {
      var p :| p in inp.Placed() && Serves(p, host);
      assert AtHost(host, n);
    }
    if p :| p in inp.Placed() && N(n) in ServiceIngresses()(p) {
      var h :| Serves(p, h) && AtHost(h, n);
      assert HostSays(inp, h, n);
    }
  }

  lemma OutpostsEmit(p: Provider, n: Node)
    ensures N(n) in FlatMap(Sort(StrLess, p.outposts), OutpostItems(p.name)) <==> exists o :: o in p.outposts && Beyond(n, "outpost:" + o, o)
  {
    var sorted := Sort(StrLess, p.outposts);
    GraphAuth.SortedOutposts(p.outposts);
    FlatMapHas(sorted, OutpostItems(p.name), N(n));
    if o :| o in sorted && N(n) in OutpostItems(p.name)(o) {
      assert Beyond(n, OUTPOST + o, o);
    }
    if o :| o in p.outposts && Beyond(n, "outpost:" + o, o) {
      assert o in sorted && N(n) in OutpostItems(p.name)(o);
    }
  }

  lemma ProviderEmits(slug: string, p: Provider, n: Node)
    ensures N(n) in ProviderItems(slug)(p) <==> OfProvider(p, n)
  {
    GraphAuth.ProviderItemsAre(slug, p);
    OutpostsEmit(p, n);
  }

  lemma ApplicationEmits(app: Application, n: Node)
    ensures N(n) in ApplicationItems()(app) <==> OfApplication(app, n)
  {
    FlatMapHas(app.providers, ProviderItems(app.slug), N(n));
    forall p | p in app.providers ensures N(n) in ProviderItems(app.slug)(p) <==> OfProvider(p, n) { ProviderEmits(app.slug, p, n); }
  }

  lemma MatchesEmit(p: Placed, n: Node)
    ensures N(n) in ServiceMatches()(p) <==>
      p.svc.authentik.Some? && exists app :: app in p.svc.authentik.value.applications && OfApplication(app, n)
  {
    if p.svc.authentik.Some? {
      var apps, ms := p.svc.authentik.value.applications, WithStrength(p.svc.authentik.value);
      FlatMapHas(ms, MatchItems(p.Key()), N(n));
      forall m | m in ms ensures N(n) in MatchItems(p.Key())(m) <==> OfApplication(m.0, n) { ApplicationEmits(m.0, n); }
      if m :| m in ms && OfApplication(m.0, n) {
        var i :| 0 <= i < |ms| && ms[i] == m;
        assert apps[i] in apps;
      }
      if app :| app in apps && OfApplication(app, n) {
        var i :| 0 <= i < |apps| && apps[i] == app;
        assert ms[i] in ms;
      }
    }
  }

  lemma IdentitiesEmit(inp: Input, n: Node)
    ensures N(n) in FlatMap(inp.Placed(), ServiceMatches()) || N(n) in FlatMap(inp.unmatchedApps, ApplicationItems())
      <==> SomeIdentity(inp, n)
  {
    FlatMapHas(inp.Placed(), ServiceMatches(), N(n));
    FlatMapHas(inp.unmatchedApps, ApplicationItems(), N(n));
    forall p | p in inp.Placed()
      ensures N(n) in ServiceMatches()(p) <==>
        p.svc.authentik.Some? && exists app :: app in p.svc.authentik.value.applications && OfApplication(app, n)
    {
      MatchesEmit(p, n);
    }
    forall app | app in inp.unmatchedApps ensures N(n) in ApplicationItems()(app) <==> OfApplication(app, n) { ApplicationEmits(app, n); }
    if N(n) in FlatMap(inp.Placed(), ServiceMatches()) {
      var p :| p in inp.Placed() && N(n) in ServiceMatches()(p);
      var app :| app in p.svc.authentik.value.applications && OfApplication(app, n);
      assert IdentitySays(inp, app, n);
    }
    if N(n) in FlatMap(inp.unmatchedApps, ApplicationItems()) {
      var app :| app in inp.unmatchedApps && OfApplication(app, n);
      assert IdentitySays(inp, app, n);
    }
  }

  lemma RoutersEmit(inp: Input, n: Node)
    ensures N(n) in FlatMap(inp.unmatchedRouters, UnmatchedRouterItems()) <==> SomeRouter(inp, n)
    ensures N(n) !in FlatMap(inp.gates, GateItems(inp)) && N(n) !in FlatMap(inp.stacks, StackMounts())
  {
    FlatMapHas(inp.unmatchedRouters, UnmatchedRouterItems(), N(n));
    forall r | r in inp.unmatchedRouters ensures N(n) in UnmatchedRouterItems()(r) <==> RouterSays(inp, r, n) {}
    FlatMapHas(inp.gates, GateItems(inp), N(n));
    FlatMapHas(inp.stacks, StackMounts(), N(n));
    forall stack | stack in inp.stacks ensures N(n) !in StackMounts()(stack) {
      FlatMapHas(InStack(stack), ServiceMounts(stack), N(n));
      forall p | p in InStack(stack) ensures N(n) !in ServiceMounts(stack)(p) {
        FlatMapHas(p.svc.mounts, MountItems(stack, p.Key()), N(n));
      }
    }
  }

  ghost predicate AnyNode(inp: Input, n: Node) {
    || SomeService(inp, n) || SomeNetwork(inp, n) || SomeVolume(inp, n)
    || SomeHost(inp, n) || SomeIdentity(inp, n) || SomeRouter(inp, n)
  }

  lemma NodesEmitted(inp: Input, n: Node)
    requires WellFed(inp)
    ensures N(n) in AllItems(inp) <==> AnyNode(inp, n)
  {
    ServicesEmit(inp, n);
    NetworksEmit(inp, n);
    VolumesEmit(inp, n);
    HostsEmit(inp, n);
    IdentitiesEmit(inp, n);
    RoutersEmit(inp, n);
    if N(n) in RelationSections(inp) {
      RelationsShaped(inp, N(n));
    }
  }

  // ---------------------------------------------------------------------------
  // The nodes kept
  // ---------------------------------------------------------------------------

  /** A node whose id settles what it says is in the graph exactly when something of the scan says it. */
  lemma NodesKept(inp: Input, n: Node)
    requires WellFed(inp) && WellNamed(inp.Placed())
    ensures n in Built(inp).nodes ==> AnyNode(inp, n)
    ensures AnyNode(inp, n) ==> exists m :: m in Built(inp).nodes && AnyNode(inp, m) && m.id == n.id
  {
    PutAllKeeps(AllItems(inp));
    NodesEmitted(inp, n);
    if AnyNode(inp, n) {
      ItemIsThere(inp, N(n));
      var m :| m in Built(inp).nodes && m.id == n.id;
      assert N(m) in AllItems(inp);
      NodesEmitted(inp, m);
    }
  }

  lemma KindShows(inp: Input, n: Node)
    requires AnyNode(inp, n)
    ensures |n.id| > 0
    ensures (n.kind.ServiceNode? <==> n.id[0] == 's') && (n.kind.NetworkNode? <==> n.id[0] == 'n')
    ensures n.kind.VolumeNode? <==> n.id[0] == 'v'
    ensures n.kind.ServiceNode? ==> SomeService(inp, n)
    ensures n.kind.NetworkNode? ==> SomeNetwork(inp, n)
    ensures n.kind.VolumeNode? ==> SomeVolume(inp, n)
  {
    if app :| IdentitySays(inp, app, n) {
      IdentityIsBeyond(app, n);
    }
  }

  lemma IdentityIsBeyond(app: Application, n: Node)
    requires OfApplication(app, n)
    ensures n.kind.ExternalNode? && |n.id| > 0 && n.id[0] in {'a', 'p', 'o'}
  {
    if p :| p in app.providers && OfProvider(p, n) {
      if o :| o in p.outposts && Beyond(n, "outpost:" + o, o) {
      }
    }
  }

  lemma OneService(inp: Input, n: Node, m: Node)
    requires WellNamed(inp.Placed()) && SomeService(inp, n) && SomeService(inp, m) && m.id == n.id
    ensures m == n
  {
    var p :| ServiceSays(inp, p, n);
    var q :| ServiceSays(inp, q, m);
    DropPrefix(SVC, p.Key(), q.Key());
    GraphAuth.KeysTellServices(inp.Placed(), p, q);
    WinnerIs(p.svc.ingress, n.detail.ingress);
    WinnerIs(p.svc.ingress, m.detail.ingress);
  }

  lemma OneNetwork(inp: Input, n: Node, m: Node)
    requires SomeNetwork(inp, n) && SomeNetwork(inp, m) && m.id == n.id
    ensures m == n
  {
    var a :| NetworkSays(inp, a, n);
    var b :| NetworkSays(inp, b, m);
    DropPrefix(NET, a, b);
  }

  lemma OneVolume(inp: Input, n: Node, m: Node)
    requires SomeVolume(inp, n) && SomeVolume(inp, m) && m.id == n.id
    ensures m == n
  {
    var s, a :| VolumeSays(inp, s, a, n);
    var t, b :| VolumeSays(inp, t, b, m);
    DropPrefix(VOL, a, b);
  }

  /** The service, network and volume nodes are exactly the services scanned, the networks that are not one service's
      alone, and the volumes declared, each saying what the scan says of it. */
  lemma ScannedNodesAre(inp: Input, n: Node)
    requires WellFed(inp) && WellNamed(inp.Placed())
    ensures n.kind.ServiceNode? ==> (n in Built(inp).nodes <==> SomeService(inp, n))
    ensures n.kind.NetworkNode? ==> (n in Built(inp).nodes <==> SomeNetwork(inp, n))
    ensures n.kind.VolumeNode? ==> (n in Built(inp).nodes <==> SomeVolume(inp, n))
  {
    NodesKept(inp, n);
    if AnyNode(inp, n) {
      var m :| m in Built(inp).nodes && AnyNode(inp, m) && m.id == n.id;
      KindShows(inp, n);
      KindShows(inp, m);
      if n.kind.ServiceNode? {
        OneService(inp, n, m);
      } else if n.kind.NetworkNode? {
        OneNetwork(inp, n, m);
      } else if n.kind.VolumeNode? {
        OneVolume(inp, n, m);
      }
    }
  }

  // ---------------------------------------------------------------------------
  // Membership edges
  // ---------------------------------------------------------------------------

  /** The flow and its provenance, read off the dependencies that cross there. */
  ghost predicate FlowSays(deps: seq<Dependency>, key: string, name: string, flow: Flow, source: FlowSource) {
    && (FlowsOut(flow) <==> exists d :: d in deps && name in d.via && d.source == key)
    && (FlowsIn(flow) <==> exists d :: d in deps && name in d.via && d.target == key)
    && (source == if !exists d :: d in deps && Touches(d, key, name) then NoSource
                  else if forall d :: d in deps && Touches(d, key, name) ==> !d.declared then FromObserved
                  else if forall d :: d in deps && Touches(d, key, name) ==> !d.observed then FromDeclared
                  else FromBoth)
  }

  ghost predicate MembershipSays(inp: Input, p: Placed, name: string, e: Edge) {
    && p in inp.Placed() && name in Nets.Of(inp.nets, p.Key()) && name in inp.nets.byName
    && (inp.nets.byName[name].external || |inp.nets.byName[name].members| != 1)
    && e.id == "network|svc:" + p.Key() + "|net:" + name && e.source == "svc:" + p.Key() && e.target == "net:" + name
    && e.kind.NetworkEdge? && e.caption == Plain("") && e.via == [] && e.declaredBy == None
    && FlowSays(inp.deps, p.Key(), name, e.flow, e.flowSource)
  }

  lemma SourceIs(deps: seq<Dependency>, key: string, name: string)
    requires forall d :: d in deps ==> d.source != d.target && (d.observed || d.declared)
    ensures FlowSays(deps, key, name, Leg(deps, key, name).0, Leg(deps, key, name).1)
  {
    LegSays(deps, key, name);
    var (flow, source) := Leg(deps, key, name);
    if d :| d in deps && Touches(d, key, name) {
      assert !flow.NoFlow?;
    }
  }

  lemma LegIsTheFlow(deps: seq<Dependency>, key: string, name: string, flow: Flow, source: FlowSource)
    requires forall d :: d in deps ==> d.source != d.target && (d.observed || d.declared)
    ensures (flow, source) == Leg(deps, key, name) <==> FlowSays(deps, key, name, flow, source)
  {
    SourceIs(deps, key, name);
    OneFlow(deps, key, name, flow, source, Leg(deps, key, name).0, Leg(deps, key, name).1);
  }

  lemma OneFlow(deps: seq<Dependency>, key: string, name: string, f: Flow, s: FlowSource, g: Flow, t: FlowSource)
    ensures FlowSays(deps, key, name, f, s) && FlowSays(deps, key, name, g, t) ==> f == g && s == t
  {
  }

  lemma MembershipText(key: string, name: string)
    ensures EdgeId(NetworkEdge, SVC + key, NET + name) == "network|svc:" + key + "|net:" + name
  {
    assert NetworkEdge.Text() + "|" + SVC == "network|svc:";
  }

  lemma MembershipFields(deps: seq<Dependency>, key: string, name: string, e: Edge)
    ensures e == MembershipEdge(deps, key, name) <==>
      && e.id == EdgeId(NetworkEdge, SVC + key, NET + name) && e.source == SVC + key && e.target == NET + name && e.kind.NetworkEdge?
      && e.caption == Plain("") && e.via == [] && e.declaredBy == None && (e.flow, e.flowSource) == Leg(deps, key, name)
  {
  }

  lemma MembershipSaysIt(inp: Input, external: set<string>, p: Placed, name: string, e: Edge)
    requires FromScan(inp, external) && p in inp.Placed() && name in Nets.Of(inp.nets, p.Key())
    ensures IsDrawn(inp.nets, name) && e == MembershipEdge(inp.deps, p.Key(), name) <==> MembershipSays(inp, p, name, e)
  {
    DependenciesAreRight(inp, external);
    LegIsTheFlow(inp.deps, p.Key(), name, e.flow, e.flowSource);
    MembershipText(p.Key(), name);
    MembershipFields(inp.deps, p.Key(), name, e);
  }

  lemma DependenciesAreRight(inp: Input, external: set<string>)
    requires FromScan(inp, external)
    ensures forall d :: d in inp.deps ==> d.source != d.target && (d.observed || d.declared)
  {
    forall d | d in inp.deps ensures d.source != d.target && (d.observed || d.declared) { DependencyIsRight(inp, external, d); }
  }

  /** A membership edge is in the graph exactly when the service is on the network and the network is drawn; it says
      which way a resolved dependency crosses there, if any does, and whether that was observed, declared or both. */
  lemma MembershipEdgesAre(inp: Input, external: set<string>, e: Edge)
    requires FromScan(inp, external) && KeysAreClean(inp) && e.kind.NetworkEdge?
    ensures e in Built(inp).edges <==> exists p, name :: MembershipSays(inp, p, name, e)
  {
    ScanIsWellFed(inp, external);
    PutAllKeeps(AllItems(inp));
    if e in Built(inp).edges {
      var p, name := NetworkEdgesAre(inp, e);
      MembershipSaysIt(inp, external, p, name, e);
    }
    if p, name :| MembershipSays(inp, p, name, e) {
      MembershipSaysIt(inp, external, p, name, e);
      MembershipIsDrawn(inp, p, name);
    }
  }

  // ---------------------------------------------------------------------------
  // Dependency edges
  // ---------------------------------------------------------------------------

  /** The names one after the other, with a comma and a space between them. */
  function Listed(names: seq<string>): string {
    if names == [] then "" else if |names| == 1 then names[0] else names[0] + ", " + Listed(names[1..])
  }

  lemma {:induction false} JoinedFront(names: seq<string>)
    requires |names| > 1
    ensures Joined(names) == names[0] + ", " + Joined(names[1..])
  {
    var n := |names| - 1;
    assert names[1..][..n - 1] == names[..n][1..] && names[1..][n - 1] == names[n];
    if |names| > 2 {
      JoinedFront(names[..n]);
      assert names[..n][0] == names[0];
      CommaMoves(names[0], Joined(names[1..n]), names[n]);
      assert names[..n][1..] == names[1..n];
    } else {
      assert names[..n] == [names[0]] && names[1..] == [names[1]];
    }
  }

  lemma CommaMoves(a: string, b: string, c: string)
    ensures a + ", " + b + ", " + c == a + ", " + (b + ", " + c)
  {
  }

  lemma {:induction false} JoinedIsListed(names: seq<string>)
    ensures Joined(names) == Listed(names)
  {
    if |names| > 1 {
      JoinedFront(names);
      JoinedIsListed(names[1..]);
    }
  }

  /** The edge of one resolved dependency: from the service that depends, to what it depends on, captioned with the
      networks they share, and saying who declared it when nothing else speaks for it. */
  ghost predicate DependencySays(d: Dependency, e: Edge) {
    && e.id == "depends_on|svc:" + d.source + "|svc:" + d.target && e.source == "svc:" + d.source && e.target == "svc:" + d.target
    && e.kind.DependsOnEdge? && e.caption == Plain(Listed(d.via)) && e.via == d.via && e.flow.NoFlow? && e.flowSource.NoSource?
    && e.declaredBy == if d.declared && !d.observed then Some((d.file, d.detail)) else None
  }

  lemma DependencySaysIt(d: Dependency, e: Edge)
    ensures e == DependencyEdge(d) <==> DependencySays(d, e)
  {
    JoinedIsListed(d.via);
    assert DependsOnEdge.Text() + "|" + (SVC + d.source) + "|" + (SVC + d.target) == "depends_on|svc:" + d.source + "|svc:" + d.target;
  }

  /** The dependency edges are exactly those of the resolved dependencies. */
  lemma DependencyEdgesAreThose(inp: Input, external: set<string>, e: Edge)
    requires FromScan(inp, external) && KeysAreClean(inp) && e.kind.DependsOnEdge?
    ensures e in Built(inp).edges <==> exists d :: d in inp.deps && DependencySays(d, e)
  {
    ScanIsWellFed(inp, external);
    PutAllKeeps(AllItems(inp));
    if e in Built(inp).edges {
      var d := DependencyEdgesAre(inp, e);
      DependencySaysIt(d, e);
    }
    if d :| d in inp.deps && DependencySays(d, e) {
      DependencySaysIt(d, e);
      EveryDependencyIsDrawn(inp, external, d);
    }
  }

  // ---------------------------------------------------------------------------
  // Volume edges
  // ---------------------------------------------------------------------------

  predicate Spells(stack: Stack, source: string, volume: string) { volume == source || volume == stack.projectName + "_" + source }

  /** The first volume the stack declares under the mount's source, as written or with the project before it. */
  ghost predicate Declares(stack: Stack, source: string, volume: string) {
    exists i :: 0 <= i < |stack.volumes| && stack.volumes[i] == volume && Spells(stack, source, volume)
      && forall j :: 0 <= j < i ==> !Spells(stack, source, stack.volumes[j])
  }

  lemma {:induction false} FirstDeclared(stack: Stack, volumes: seq<string>, source: string)
    ensures var v := DeclaredVolume(stack, volumes, source);
      && (v.None? ==> forall i :: 0 <= i < |volumes| ==> !Spells(stack, source, volumes[i]))
      && (v.Some? ==> exists i :: 0 <= i < |volumes| && volumes[i] == v.value && Spells(stack, source, v.value)
                        && forall j :: 0 <= j < i ==> !Spells(stack, source, volumes[j]))
  {
    if volumes != [] && !Spells(stack, source, volumes[0]) {
      FirstDeclared(stack, volumes[1..], source);
      var v := DeclaredVolume(stack, volumes[1..], source);
      assert forall i :: 0 < i < |volumes| ==> volumes[i] == volumes[1..][i - 1];
      if v.Some? {
        var i :| 0 <= i < |volumes[1..]| && volumes[1..][i] == v.value && Spells(stack, source, v.value)
          && forall j :: 0 <= j < i ==> !Spells(stack, source, volumes[1..][j]);
        assert volumes[i + 1] == v.value;
        assert forall j :: 0 <= j < i + 1 ==> !Spells(stack, source, volumes[j]);
      }
    }
  }

  lemma DeclaresIt(stack: Stack, source: string, volume: string)
    ensures DeclaredVolume(stack, stack.volumes, source) == Some(volume) <==> Declares(stack, source, volume)
  {
    FirstDeclared(stack, stack.volumes, source);
  }

  ghost predicate IsMountEdge(p: Placed, m: Mount, volume: string, e: Edge) {
    && e.id == "volume|svc:" + p.Key() + "|vol:" + volume && e.source == "svc:" + p.Key() && e.target == "vol:" + volume
    && e.kind.VolumeEdge? && e.caption == Plain(m.target) && e.via == [] && e.flow.NoFlow? && e.flowSource.NoSource? && e.declaredBy.None?
  }

  ghost predicate MountSays(inp: Input, stack: Stack, p: Placed, m: Mount, volume: string, e: Edge) {
    && stack in inp.stacks && p in InStack(stack) && m in p.svc.mounts && m.isVolume && m.source != "" && Declares(stack, m.source, volume)
    && IsMountEdge(p, m, volume, e)
  }

  ghost predicate SomeMount(inp: Input, e: Edge) { exists stack, p, m, volume :: MountSays(inp, stack, p, m, volume, e) }

  lemma MountText(key: string, volume: string)
    ensures EdgeId(VolumeEdge, SVC + key, VOL + volume) == "volume|svc:" + key + "|vol:" + volume
  {
    assert VolumeEdge.Text() + "|" + SVC == "volume|svc:";
  }

  lemma MountEmits(inp: Input, stack: Stack, p: Placed, m: Mount, e: Edge)
    requires stack in inp.stacks && p in InStack(stack) && m in p.svc.mounts
    ensures E(e) in MountItems(stack, p.Key())(m) <==> exists volume :: MountSays(inp, stack, p, m, volume, e)
  {
    forall volume ensures e == PlainEdge(VolumeEdge, SVC + p.Key(), VOL + volume, Plain(m.target)) <==> IsMountEdge(p, m, volume, e) {
      MountText(p.Key(), volume);
    }
    if volume :| MountSays(inp, stack, p, m, volume, e) {
      DeclaresIt(stack, m.source, volume);
    }
    if E(e) in MountItems(stack, p.Key())(m) {
      var volume := DeclaredVolume(stack, stack.volumes, m.source).value;
      DeclaresIt(stack, m.source, volume);
      assert MountSays(inp, stack, p, m, volume, e);
    }
  }

  lemma MountsEmit(inp: Input, e: Edge)
    ensures E(e) in FlatMap(inp.stacks, StackMounts()) <==> SomeMount(inp, e)
  {
    FlatMapHas(inp.stacks, StackMounts(), E(e));
    if stack :| stack in inp.stacks && E(e) in StackMounts()(stack) {
      FlatMapHas(InStack(stack), ServiceMounts(stack), E(e));
      var p :| p in InStack(stack) && E(e) in ServiceMounts(stack)(p);
      FlatMapHas(p.svc.mounts, MountItems(stack, p.Key()), E(e));
      var m :| m in p.svc.mounts && E(e) in MountItems(stack, p.Key())(m);
      MountEmits(inp, stack, p, m, e);
    }
    if stack, p, m, volume :| MountSays(inp, stack, p, m, volume, e) {
      MountEmits(inp, stack, p, m, e);
      FlatMapHas(p.svc.mounts, MountItems(stack, p.Key()), E(e));
      FlatMapHas(InStack(stack), ServiceMounts(stack), E(e));
    }
  }

  lemma HostnamesAreIngress(host: string, e: Edge)
    requires E(e) in HostnameItems(host)
    ensures e.kind.IngressEdge?
  {
  }

  lemma CloudIsIngress(key: string, r: CloudRoute, e: Edge)
    requires E(e) in CloudItems(key)(r)
    ensures e.kind.IngressEdge?
  {
    if E(e) in HostnameItems(r.hostname) {
      HostnamesAreIngress(r.hostname, e);
    }
  }

  lemma RouterIsIngress(key: string, r: TraefikRoute, e: Edge)
    requires E(e) in RouterItems(key)(r)
    ensures e.kind.IngressEdge?
  {
    FlatMapHas(r.hosts, RouterHostItems(key, r.router), E(e));
    var h :| h in r.hosts && E(e) in RouterHostItems(key, r.router)(h);
    if E(e) in HostnameItems(h) {
      HostnamesAreIngress(h, e);
    }
  }

  lemma PathsAreIngress(inp: Input, e: Edge)
    requires E(e) in FlatMap(inp.Placed(), ServiceIngresses())
    ensures e.kind.IngressEdge?
  {
    FlatMapHas(inp.Placed(), ServiceIngresses(), E(e));
    var p :| p in inp.Placed() && E(e) in ServiceIngresses()(p);
    FlatMapHas(p.svc.cloudflare, CloudItems(p.Key()), E(e));
    FlatMapHas(p.svc.traefik, RouterItems(p.Key()), E(e));
    if r :| r in p.svc.traefik && E(e) in RouterItems(p.Key())(r) {
      RouterIsIngress(p.Key(), r, e);
    } else {
      var r :| r in p.svc.cloudflare && E(e) in CloudItems(p.Key())(r);
      CloudIsIngress(p.Key(), r, e);
    }
  }

  lemma AuthIsAuth(inp: Input, e: Edge)
    requires WellNamed(inp.Placed()) && E(e) in AuthSections(inp)
    ensures e.kind.AuthEdge?
  {
    GraphAuth.GatesEmit(inp, e);
    GraphAuth.MatchesEmit(inp, e);
    GraphAuth.UnmatchedEmit(inp, e);
    GraphAuth.ServicesBring(inp, e);
    GraphAuth.BroughtBySomething(inp, e);
  }

  lemma VolumeEdgesEmitted(inp: Input, e: Edge)
    requires WellFed(inp) && WellNamed(inp.Placed()) && e.kind.VolumeEdge?
    ensures E(e) in AllItems(inp) <==> SomeMount(inp, e)
  {
    MountsEmit(inp, e);
    if E(e) in NodeSections(inp) {
      NodesShaped(inp, E(e));
    } else if E(e) in RelationSections(inp) {
      RelationsShaped(inp, E(e));
    } else if E(e) in FlatMap(inp.Placed(), ServiceIngresses()) {
      PathsAreIngress(inp, e);
    } else if E(e) in AuthSections(inp) {
      AuthIsAuth(inp, e);
    }
  }

  lemma MountId(inp: Input, e: Edge) returns (key: string, volume: string)
    requires KeysAreClean(inp) && SomeMount(inp, e)
    ensures '|' !in key && e.id == EdgeId(VolumeEdge, SVC + key, VOL + volume) && e.source == SVC + key && e.target == VOL + volume
  {
    var s, p, m, v :| MountSays(inp, s, p, m, v, e);
    FlatMapHas(inp.stacks, InStack, p);
    key, volume := p.Key(), v;
    MountText(key, volume);
  }

  lemma MountIdSplits(inp: Input, e: Edge, f: Edge)
    requires KeysAreClean(inp) && SomeMount(inp, e) && SomeMount(inp, f) && e.id == f.id
    ensures e.source == f.source && e.target == f.target
  {
    var a, v := MountId(inp, e);
    var b, w := MountId(inp, f);
    assert '|' !in SVC;
    EdgeIdSplits(VolumeEdge, SVC + a, VOL + v, SVC + b, VOL + w);
  }

  /** Every volume edge is a mount of a volume the stack declares, and between each such service and volume there is one;
      of several mounts of one volume the graph keeps one target. */
  lemma VolumeEdgesAre(inp: Input, e: Edge)
    requires WellFed(inp) && WellNamed(inp.Placed()) && KeysAreClean(inp) && e.kind.VolumeEdge?
    ensures e in Built(inp).edges ==> SomeMount(inp, e)
    ensures SomeMount(inp, e) ==>
      exists f :: f in Built(inp).edges && SomeMount(inp, f) && f.source == e.source && f.target == e.target
  {
    PutAllKeeps(AllItems(inp));
    VolumeEdgesEmitted(inp, e);
    if SomeMount(inp, e) {
      ItemIsThere(inp, E(e));
      var f :| f in Built(inp).edges && f.id == e.id;
      assert E(f) in AllItems(inp);
      SameIdSameKind(inp, e, f);
      VolumeEdgesEmitted(inp, f);
      MountIdSplits(inp, e, f);
    }
  }

  // ---------------------------------------------------------------------------
  // The edges into the hostnames
  // ---------------------------------------------------------------------------

  ghost predicate HostEdgeSays(inp: Input, host: string, e: Edge) {
    && Served(inp, host) && e.id == "ingress|outside|host:" + host && e.source == "outside" && e.target == "host:" + host
    && e.kind.IngressEdge? && e.caption == Plain("") && e.via == [] && e.flow.NoFlow? && e.flowSource.NoSource? && e.declaredBy.None?
  }

  ghost predicate IntoHost(host: string, e: Edge) { e == PlainEdge(IngressEdge, OUTSIDE, HOST + host, Plain("")) }

  lemma IntoHostIs(inp: Input, host: string, e: Edge)
    ensures HostEdgeSays(inp, host, e) <==> Served(inp, host) && IntoHost(host, e)
  {
    assert IngressEdge.Text() + "|" + OUTSIDE + "|" + (HOST + host) == "ingress|outside|host:" + host;
  }

  lemma ServiceHostEdges(p: Placed, e: Edge)
    requires e.source == OUTSIDE
    ensures E(e) in ServiceIngresses()(p) <==> exists h :: Serves(p, h) && IntoHost(h, e)
  {
    FlatMapHas(p.svc.cloudflare, CloudItems(p.Key()), E(e));
    FlatMapHas(p.svc.traefik, RouterItems(p.Key()), E(e));
    forall r | r in p.svc.cloudflare ensures E(e) in CloudItems(p.Key())(r) <==> r.hostname != "" && IntoHost(r.hostname, e) {
      CloudHostEdge(p.Key(), r, e);
    }
    forall r | r in p.svc.traefik ensures E(e) in RouterItems(p.Key())(r) <==> exists h :: h in r.hosts && IntoHost(h, e) {
      RouterHostEdge(p.Key(), r, e);
    }
  }

  lemma CloudHostEdge(key: string, r: CloudRoute, e: Edge)
    requires e.source == OUTSIDE
    ensures E(e) in CloudItems(key)(r) <==> r.hostname != "" && IntoHost(r.hostname, e)
  {
    RoutePaths.LegsLeaveTheOutside(key, r.hostname);
    RoutePaths.LegsLeaveTheOutside(if ThroughHop(r) then r.origin.value.hopKey else "", "");
  }

  lemma RouterHostEdge(key: string, r: TraefikRoute, e: Edge)
    requires e.source == OUTSIDE
    ensures E(e) in RouterItems(key)(r) <==> exists h :: h in r.hosts && IntoHost(h, e)
  {
    FlatMapHas(r.hosts, RouterHostItems(key, r.router), E(e));
    forall h ensures E(e) in RouterHostItems(key, r.router)(h) <==> IntoHost(h, e) {
      RoutePaths.LegsLeaveTheOutside(key, h);
    }
  }

  lemma HostEdgesEmit(inp: Input, e: Edge)
    requires e.source == OUTSIDE
    ensures E(e) in FlatMap(inp.Placed(), ServiceIngresses()) <==> exists host :: HostEdgeSays(inp, host, e)
  {
    FlatMapHas(inp.Placed(), ServiceIngresses(), E(e));
    forall p | p in inp.Placed() ensures E(e) in ServiceIngresses()(p) <==> exists h :: Serves(p, h) && IntoHost(h, e) {
      ServiceHostEdges(p, e);
    }
    if p :| p in inp.Placed() && E(e) in ServiceIngresses()(p) {
      var h :| Serves(p, h) && IntoHost(h, e);
      IntoHostIs(inp, h, e);
    }
    if host :| HostEdgeSays(inp, host, e) {
      IntoHostIs(inp, host, e);
      var p :| p in inp.Placed() && Serves(p, host);
    }
  }

  /** One edge leads from outside into each hostname some route answers on, and no other leaves the outside. */
  lemma HostEdgesAre(inp: Input, e: Edge)
    requires WellFed(inp) && NamesAreClean(inp) && e.kind.IngressEdge? && e.source == OUTSIDE
    ensures e in Built(inp).edges <==> exists host :: HostEdgeSays(inp, host, e)
  {
    PutAllKeeps(AllItems(inp));
    HostEdgesEmit(inp, e);
    if e in Built(inp).edges {
      RoutePaths.IngressComesFromRoutes(inp, e);
    }
    if exists host :: HostEdgeSays(inp, host, e) {
      assert E(e) in OtherSections(inp);
      EveryRouteIsDrawn(inp, e);
    }
  }
}
