/** The builder of labview/internal/fleet/graph.go: fields that grow in nested loops, one method a section. */
module GraphBuilding {
  import opened Options
  import opened Lists
  import opened Ordering
  import opened Vocabulary
  import opened Fleet
  import opened Depends
  import opened Graphs
  import Nets = Networks

  class Builder {
    const inp: Input
    var nodes: seq<Node>
    var edges: seq<Edge>
    var seen: set<string>

    constructor (inp: Input)
      ensures this.inp == inp && Contents() == EMPTY
    {
      this.inp := inp;
      nodes, edges, seen := [], [], {};
    }

    ghost function Contents(): Graph
      reads this
    {
      Graph(nodes, edges, seen)
    }

    /** `node`: once per id, the first spelling wins. */
    method AddNode(n: Node)
      modifies this
      ensures Contents() == Put(old(Contents()), N(n))
    {
      if n.id !in seen {
        seen, nodes := seen + {n.id}, nodes + [n];
      }
    }

    /** `edge`: through the same `seen`. */
    method AddEdge(e: Edge)
      modifies this
      ensures Contents() == Put(old(Contents()), E(e))
    {
      if e.id !in seen {
        seen, edges := seen + {e.id}, edges + [e];
      }
    }

    /** One node per service. */
    method ServiceNodes()
      modifies this
      ensures Contents() == PutAll(old(Contents()), FlatMap(inp.Placed(), ServiceItems(inp)))
    {
      ghost var g := Contents();
      var xs, i := inp.Placed(), 0;
      while i < |xs|
        invariant 0 <= i <= |xs| && Contents() == PutAll(g, FlatMap(xs[..i], ServiceItems(inp)))
      {
        SectionStep(g, xs, ServiceItems(inp), i);
        PutOne(Contents(), N(ServiceOf(inp, xs[i])));
        AddNode(ServiceOf(inp, xs[i]));
        i := i + 1;
      }
      assert xs[..i] == xs;
    }

    /** Every network but the solo-local ones. */
    method NetworkNodes()
      modifies this
      ensures Contents() == PutAll(old(Contents()), FlatMap(inp.nets.order, NetworkItems(inp.nets)))
    {
      ghost var g := Contents();
      var xs, i := inp.nets.order, 0;
      while i < |xs|
        invariant 0 <= i <= |xs| && Contents() == PutAll(g, FlatMap(xs[..i], NetworkItems(inp.nets)))
      {
        SectionStep(g, xs, NetworkItems(inp.nets), i);
        if IsDrawn(inp.nets, xs[i]) {
          PutOne(Contents(), N(NetworkOf(inp.nets, xs[i])));
          AddNode(NetworkOf(inp.nets, xs[i]));
        }
        i := i + 1;
      }
      assert xs[..i] == xs;
    }

    /** The volumes of one stack. */
    method StackVolumes(stack: Stack)
      modifies this
      ensures Contents() == PutAll(old(Contents()), FlatMap(stack.volumes, VolumeItems()))
    {
      ghost var g := Contents();
      var xs, i := stack.volumes, 0;
      while i < |xs|
        invariant 0 <= i <= |xs| && Contents() == PutAll(g, FlatMap(xs[..i], VolumeItems()))
      {
        SectionStep(g, xs, VolumeItems(), i);
        PutOne(Contents(), N(VolumeOf(xs[i])));
        AddNode(VolumeOf(xs[i]));
        i := i + 1;
      }
      assert xs[..i] == xs;
    }

    /** Every declared volume. */
    method VolumeNodes()
      modifies this
      ensures Contents() == PutAll(old(Contents()), FlatMap(inp.stacks, StackVolumeItems()))
    {
      ghost var g := Contents();
      var xs, i := inp.stacks, 0;
      while i < |xs|
        invariant 0 <= i <= |xs| && Contents() == PutAll(g, FlatMap(xs[..i], StackVolumeItems()))
      {
        SectionStep(g, xs, StackVolumeItems(), i);
        StackVolumes(xs[i]);
        i := i + 1;
      }
      assert xs[..i] == xs;
    }

    /** What crosses one leg, read off every resolved dependency. */
    method LegOf(key: string, name: string) returns (flow: Flow, source: FlowSource)
      ensures (flow, source) == Leg(inp.deps, key, name)
    {
      var flags := Flags(false, false, false, false);
      var i := 0;
      while i < |inp.deps|
        invariant 0 <= i <= |inp.deps| && flags == FlagsOf(inp.deps[..i], key, name)
      {
        OneMoreFlag(inp.deps, key, name, i);
        flags := Flag(flags, inp.deps[i], key, name);
        i := i + 1;
      }
      assert inp.deps[..i] == inp.deps;
      if !flags.out && !flags.into {
        return NoFlow, NoSource;
      }
      flow := if flags.out && flags.into then BothWays else if flags.out then ToNetwork else ToService;
      source := if flags.observed && flags.declared then FromBoth else if flags.declared then FromDeclared else FromObserved;
    }

    /** The body of that loop. */
    method Flag(before: Flags, d: Dependency, key: string, name: string) returns (flags: Flags)
      ensures flags == Flagged(before, d, key, name)
    {
      flags := before;
      if name in d.via && (d.source == key || d.target == key) {
        if d.source == key {
          flags := flags.(out := true);
        } else {
          flags := flags.(into := true);
        }
        flags := flags.(observed := flags.observed || d.observed, declared := flags.declared || d.declared);
      }
    }

    /** One membership, when the network is drawn. */
    method AddMembership(key: string, name: string)
      modifies this
      ensures Contents() == PutAll(old(Contents()), MembershipItems(inp, key)(name))
    {
      if IsDrawn(inp.nets, name) {
        var flow, source := LegOf(key, name);
        var e := PlainEdge(NetworkEdge, SVC + key, NET + name, Plain("")).(flow := flow, flowSource := source);
        PutOne(Contents(), E(e));
        AddEdge(e);
      }
    }

    /** One edge per drawn network of one service. */
    method Memberships(key: string)
      modifies this
      ensures Contents() == PutAll(old(Contents()), FlatMap(Nets.Of(inp.nets, key), MembershipItems(inp, key)))
    {
      ghost var g := Contents();
      var xs, i := Nets.Of(inp.nets, key), 0;
      while i < |xs|
        invariant 0 <= i <= |xs| && Contents() == PutAll(g, FlatMap(xs[..i], MembershipItems(inp, key)))
      {
        SectionStep(g, xs, MembershipItems(inp, key), i);
        AddMembership(key, xs[i]);
        i := i + 1;
      }
      assert xs[..i] == xs;
    }

    /** One edge per service per drawn network. */
    method MembershipEdges()
      modifies this
      ensures Contents() == PutAll(old(Contents()), FlatMap(inp.Placed(), ServiceMemberships(inp)))
    {
      ghost var g := Contents();
      var xs, i := inp.Placed(), 0;
      while i < |xs|
        invariant 0 <= i <= |xs| && Contents() == PutAll(g, FlatMap(xs[..i], ServiceMemberships(inp)))
      {
        SectionStep(g, xs, ServiceMemberships(inp), i);
        Memberships(xs[i].Key());
        i := i + 1;
      }
      assert xs[..i] == xs;
    }

    /** Every resolved dependency. */
    method DependencyEdges()
      modifies this
      ensures Contents() == PutAll(old(Contents()), FlatMap(inp.deps, DependencyItems()))
    {
      ghost var g := Contents();
      var xs, i := inp.deps, 0;
      while i < |xs|
        invariant 0 <= i <= |xs| && Contents() == PutAll(g, FlatMap(xs[..i], DependencyItems()))
      {
        SectionStep(g, xs, DependencyItems(), i);
        PutOne(Contents(), E(DependencyEdge(xs[i])));
        AddEdge(DependencyEdge(xs[i]));
        i := i + 1;
      }
      assert xs[..i] == xs;
    }

    /** One mount, when it names a volume its stack declares. */
    method AddMount(stack: Stack, key: string, m: Mount)
      modifies this
      ensures Contents() == PutAll(old(Contents()), MountItems(stack, key)(m))
    {
      if m.isVolume && m.source != "" {
        var name := DeclaredVolume(stack, stack.volumes, m.source);
        if name.Some? {
          var e := PlainEdge(VolumeEdge, SVC + key, VOL + name.value, Plain(m.target));
          PutOne(Contents(), E(e));
          AddEdge(e);
        }
      }
    }

    /** The mounts of one service that name a volume its stack declares. */
    method Mounts(stack: Stack, p: Placed)
      modifies this
      ensures Contents() == PutAll(old(Contents()), FlatMap(p.svc.mounts, MountItems(stack, p.Key())))
    {
      ghost var g := Contents();
      var xs, i := p.svc.mounts, 0;
      while i < |xs|
        invariant 0 <= i <= |xs| && Contents() == PutAll(g, FlatMap(xs[..i], MountItems(stack, p.Key())))
      {
        SectionStep(g, xs, MountItems(stack, p.Key()), i);
        AddMount(stack, p.Key(), xs[i]);
        i := i + 1;
      }
      assert xs[..i] == xs;
    }

    /** The mounts of one stack. */
    method StackVolumeEdges(stack: Stack)
      modifies this
      ensures Contents() == PutAll(old(Contents()), FlatMap(InStack(stack), ServiceMounts(stack)))
    {
      ghost var g := Contents();
      var xs, i := InStack(stack), 0;
      while i < |xs|
        invariant 0 <= i <= |xs| && Contents() == PutAll(g, FlatMap(xs[..i], ServiceMounts(stack)))
      {
        SectionStep(g, xs, ServiceMounts(stack), i);
        Mounts(stack, xs[i]);
        i := i + 1;
      }
      assert xs[..i] == xs;
    }

    /** Every such mount. */
    method VolumeEdges()
      modifies this
      ensures Contents() == PutAll(old(Contents()), FlatMap(inp.stacks, StackMounts()))
    {
      ghost var g := Contents();
      var xs, i := inp.stacks, 0;
      while i < |xs|
        invariant 0 <= i <= |xs| && Contents() == PutAll(g, FlatMap(xs[..i], StackMounts()))
      {
        SectionStep(g, xs, StackMounts(), i);
        StackVolumeEdges(xs[i]);
        i := i + 1;
      }
      assert xs[..i] == xs;
    }

    /** The outside, the hostname, and the edge between them. */
    method Hostname(host: string)
      modifies this
      ensures Contents() == PutAll(old(Contents()), HostnameItems(host))
    {
      ThreeItems(Contents(), HostnameItems(host));
      AddNode(Outsider(OUTSIDE, "outside"));
      AddNode(Outsider(HOST + host, host));
      AddEdge(PlainEdge(IngressEdge, OUTSIDE, HOST + host, Plain("")));
    }

    /** One more path after what is drawn already. */
    method Path(ghost g: Graph, ghost before: seq<Item>, e: Edge)
      requires Contents() == PutAll(g, before)
      modifies this
      ensures Contents() == PutAll(g, before + [E(e)])
    {
      PutAllAppend(g, before, [E(e)]);
      PutOne(Contents(), E(e));
      AddEdge(e);
    }

    /** One tunnel route, as a chain through its hop when its origin resolved to one. */
    method CloudRoute(key: string, r: Fleet.CloudRoute)
      modifies this
      ensures Contents() == PutAll(old(Contents()), CloudItems(key)(r))
    {
      if r.hostname == "" {
        return;
      }
      ghost var g, head := Contents(), HostnameItems(r.hostname);
      Hostname(r.hostname);
      if ThroughHop(r) {
        var hop := SVC + r.origin.value.hopKey;
        ghost var first := E(PathEdge(HOST + r.hostname, hop, "tunnel"));
        Path(g, head, PathEdge(HOST + r.hostname, hop, "tunnel"));
        Path(g, head + [first], PathEdge(hop, SVC + key, r.origin.value.address.raw));
        assert head + [first] + [E(PathEdge(hop, SVC + key, r.origin.value.address.raw))] == CloudItems(key)(r);
      } else {
        Path(g, head, PathEdge(HOST + r.hostname, SVC + key, "tunnel"));
      }
    }

    /** One service's tunnel routes. */
    method CloudRoutes(key: string, p: Placed)
      modifies this
      ensures Contents() == PutAll(old(Contents()), FlatMap(p.svc.cloudflare, CloudItems(key)))
    {
      ghost var g := Contents();
      var xs, i := p.svc.cloudflare, 0;
      while i < |xs|
        invariant 0 <= i <= |xs| && Contents() == PutAll(g, FlatMap(xs[..i], CloudItems(key)))
      {
        SectionStep(g, xs, CloudItems(key), i);
        CloudRoute(key, xs[i]);
        i := i + 1;
      }
      assert xs[..i] == xs;
    }

    /** One host of a router. */
    method RouterHost(key: string, router: string, host: string)
      modifies this
      ensures Contents() == PutAll(old(Contents()), RouterHostItems(key, router)(host))
    {
      ghost var g := Contents();
      Hostname(host);
      Path(g, HostnameItems(host), PathEdge(HOST + host, SVC + key, router));
    }

    /** One router's hosts. */
    method RouterHosts(key: string, r: TraefikRoute)
      modifies this
      ensures Contents() == PutAll(old(Contents()), FlatMap(r.hosts, RouterHostItems(key, r.router)))
    {
      ghost var g := Contents();
      var xs, i := r.hosts, 0;
      while i < |xs|
        invariant 0 <= i <= |xs| && Contents() == PutAll(g, FlatMap(xs[..i], RouterHostItems(key, r.router)))
      {
        SectionStep(g, xs, RouterHostItems(key, r.router), i);
        RouterHost(key, r.router, xs[i]);
        i := i + 1;
      }
      assert xs[..i] == xs;
    }

    /** One service's routers. */
    method TraefikRoutes(key: string, p: Placed)
      modifies this
      ensures Contents() == PutAll(old(Contents()), FlatMap(p.svc.traefik, RouterItems(key)))
    {
      ghost var g := Contents();
      var xs, i := p.svc.traefik, 0;
      while i < |xs|
        invariant 0 <= i <= |xs| && Contents() == PutAll(g, FlatMap(xs[..i], RouterItems(key)))
      {
        SectionStep(g, xs, RouterItems(key), i);
        RouterHosts(key, xs[i]);
        i := i + 1;
      }
      assert xs[..i] == xs;
    }

    /** One service's paths. */
    method ServicePaths(p: Placed)
      modifies this
      ensures Contents() == PutAll(old(Contents()), ServiceIngresses()(p))
    {
      PutAllAppend(Contents(), FlatMap(p.svc.cloudflare, CloudItems(p.Key())), FlatMap(p.svc.traefik, RouterItems(p.Key())));
      CloudRoutes(p.Key(), p);
      TraefikRoutes(p.Key(), p);
    }

    /** One path per route. */
    method IngressEdges()
      modifies this
      ensures Contents() == PutAll(old(Contents()), FlatMap(inp.Placed(), ServiceIngresses()))
    {
      ghost var g := Contents();
      var xs, i := inp.Placed(), 0;
      while i < |xs|
        invariant 0 <= i <= |xs| && Contents() == PutAll(g, FlatMap(xs[..i], ServiceIngresses()))
      {
        SectionStep(g, xs, ServiceIngresses(), i);
        ServicePaths(xs[i]);
        i := i + 1;
      }
      assert xs[..i] == xs;
    }

    /** A provider's outposts, sorted. */
    method Outposts(p: Provider)
      modifies this
      ensures Contents() == PutAll(old(Contents()), FlatMap(Sort(StrLess, p.outposts), OutpostItems(p.name)))
    {
      ghost var g := Contents();
      var xs, i := Sort(StrLess, p.outposts), 0;
      while i < |xs|
        invariant 0 <= i <= |xs| && Contents() == PutAll(g, FlatMap(xs[..i], OutpostItems(p.name)))
      {
        SectionStep(g, xs, OutpostItems(p.name), i);
        var n, e := Outsider(OUTPOST + xs[i], xs[i]), PlainEdge(AuthEdge, OUTPOST + xs[i], PROVIDER + p.name, Plain(""));
        TwoItems(Contents(), N(n), E(e));
        AddNode(n);
        AddEdge(e);
        i := i + 1;
      }
      assert xs[..i] == xs;
    }

    /** One provider and its outposts. */
    method AddProvider(slug: string, p: Provider)
      modifies this
      ensures Contents() == PutAll(old(Contents()), ProviderItems(slug)(p))
    {
      var n, e := Outsider(PROVIDER + p.name, p.name), PlainEdge(AuthEdge, PROVIDER + p.name, APP + slug, OfProvider(p.kind));
      PutAllAppend(Contents(), [N(n), E(e)], FlatMap(Sort(StrLess, p.outposts), OutpostItems(p.name)));
      TwoItems(Contents(), N(n), E(e));
      AddNode(n);
      AddEdge(e);
      Outposts(p);
    }

    /** An application's providers and their outposts. */
    method Providers(app: Application)
      modifies this
      ensures Contents() == PutAll(old(Contents()), FlatMap(app.providers, ProviderItems(app.slug)))
    {
      ghost var g := Contents();
      var xs, i := app.providers, 0;
      while i < |xs|
        invariant 0 <= i <= |xs| && Contents() == PutAll(g, FlatMap(xs[..i], ProviderItems(app.slug)))
      {
        SectionStep(g, xs, ProviderItems(app.slug), i);
        AddProvider(app.slug, xs[i]);
        i := i + 1;
      }
      assert xs[..i] == xs;
    }

    /** One application and what stands behind it. */
    method AddApplication(app: Application)
      modifies this
      ensures Contents() == PutAll(old(Contents()), ApplicationItems()(app))
    {
      var n := Outsider(APP + app.slug, app.name);
      PutAllAppend(Contents(), [N(n)], FlatMap(app.providers, ProviderItems(app.slug)));
      PutOne(Contents(), N(n));
      AddNode(n);
      Providers(app);
    }

    /** One application matched onto a service. */
    method AddMatch(key: string, m: (Application, Strength))
      modifies this
      ensures Contents() == PutAll(old(Contents()), MatchItems(key)(m))
    {
      ghost var g := Contents();
      AddApplication(m.0);
      Path(g, ApplicationItems()(m.0), PlainEdge(AuthEdge, APP + m.0.slug, SVC + key, OfStrength(m.1)));
    }

    /** The applications matched onto one service. */
    method Matched(key: string, m: AuthentikMatch)
      modifies this
      ensures Contents() == PutAll(old(Contents()), FlatMap(WithStrength(m), MatchItems(key)))
    {
      ghost var g := Contents();
      var xs, i := WithStrength(m), 0;
      while i < |xs|
        invariant 0 <= i <= |xs| && Contents() == PutAll(g, FlatMap(xs[..i], MatchItems(key)))
      {
        SectionStep(g, xs, MatchItems(key), i);
        AddMatch(key, xs[i]);
        i := i + 1;
      }
      assert xs[..i] == xs;
    }

    method ServiceMatch(p: Placed)
      modifies this
      ensures Contents() == PutAll(old(Contents()), ServiceMatches()(p))
    {
      if p.svc.authentik.Some? {
        Matched(p.Key(), p.svc.authentik.value);
      }
    }

    /** Every match. */
    method Matches()
      modifies this
      ensures Contents() == PutAll(old(Contents()), FlatMap(inp.Placed(), ServiceMatches()))
    {
      ghost var g := Contents();
      var xs, i := inp.Placed(), 0;
      while i < |xs|
        invariant 0 <= i <= |xs| && Contents() == PutAll(g, FlatMap(xs[..i], ServiceMatches()))
      {
        SectionStep(g, xs, ServiceMatches(), i);
        ServiceMatch(xs[i]);
        i := i + 1;
      }
      assert xs[..i] == xs;
    }

    /** One gate, when it and what it guards are different scanned services. */
    method AddGate(key: string, gate: string)
      modifies this
      ensures Contents() == PutAll(old(Contents()), GateItems(inp)((key, gate)))
    {
      if !(gate == "" || gate == key || !inp.Has(gate) || !inp.Has(key)) {
        var e := PlainEdge(AuthEdge, SVC + gate, SVC + key, OfMethod(AuthOf(inp.Placed(), key)));
        PutOne(Contents(), E(e));
        AddEdge(e);
      }
    }

    /** The gate in front of each path, when both ends are scanned services. */
    method Gates()
      modifies this
      ensures Contents() == PutAll(old(Contents()), FlatMap(inp.gates, GateItems(inp)))
    {
      ghost var g := Contents();
      var xs, i := inp.gates, 0;
      while i < |xs|
        invariant 0 <= i <= |xs| && Contents() == PutAll(g, FlatMap(xs[..i], GateItems(inp)))
      {
        SectionStep(g, xs, GateItems(inp), i);
        AddGate(xs[i].0, xs[i].1);
        i := i + 1;
      }
      assert xs[..i] == xs;
    }

    /** The applications no service was tied to. */
    method UnmatchedApplications()
      modifies this
      ensures Contents() == PutAll(old(Contents()), FlatMap(inp.unmatchedApps, ApplicationItems()))
    {
      ghost var g := Contents();
      var xs, i := inp.unmatchedApps, 0;
      while i < |xs|
        invariant 0 <= i <= |xs| && Contents() == PutAll(g, FlatMap(xs[..i], ApplicationItems()))
      {
        SectionStep(g, xs, ApplicationItems(), i);
        AddApplication(xs[i]);
        i := i + 1;
      }
      assert xs[..i] == xs;
    }

    /** The live routers no service was tied to. */
    method UnmatchedRouters()
      modifies this
      ensures Contents() == PutAll(old(Contents()), FlatMap(inp.unmatchedRouters, UnmatchedRouterItems()))
    {
      ghost var g := Contents();
      var xs, i := inp.unmatchedRouters, 0;
      while i < |xs|
        invariant 0 <= i <= |xs| && Contents() == PutAll(g, FlatMap(xs[..i], UnmatchedRouterItems()))
      {
        SectionStep(g, xs, UnmatchedRouterItems(), i);
        PutOne(Contents(), N(Outsider(ROUTER + xs[i].0 + "@" + xs[i].1, xs[i].0)));
        AddNode(Outsider(ROUTER + xs[i].0 + "@" + xs[i].1, xs[i].0));
        i := i + 1;
      }
      assert xs[..i] == xs;
    }

    /** The identity diagram. */
    method AuthEdges()
      modifies this
      ensures Contents() == PutAll(old(Contents()), AuthSections(inp))
    {
      ghost var g, a, b := Contents(), FlatMap(inp.gates, GateItems(inp)), FlatMap(inp.Placed(), ServiceMatches());
      ghost var c, d := FlatMap(inp.unmatchedApps, ApplicationItems()), FlatMap(inp.unmatchedRouters, UnmatchedRouterItems());
      FourSections(g, a, b, c, d);
      Gates();
      Matches();
      UnmatchedApplications();
      UnmatchedRouters();
    }

    /** The nodes first: services, networks, volumes. */
    method AllNodes()
      modifies this
      ensures Contents() == PutAll(old(Contents()), NodeSections(inp))
    {
      ThreeSections(Contents(), FlatMap(inp.Placed(), ServiceItems(inp)), FlatMap(inp.nets.order, NetworkItems(inp.nets)),
                    FlatMap(inp.stacks, StackVolumeItems()));
      ServiceNodes();
      NetworkNodes();
      VolumeNodes();
    }

    /** The whole graph. */
    method Build()
      modifies this
      ensures Contents() == PutAll(old(Contents()), AllItems(inp))
    {
      ghost var g := Contents();
      ThreeSections(g, NodeSections(inp), RelationSections(inp), OtherSections(inp));
      AllNodes();
      PutAllAppend(Contents(), FlatMap(inp.Placed(), ServiceMemberships(inp)), FlatMap(inp.deps, DependencyItems()));
      MembershipEdges();
      DependencyEdges();
      ThreeSections(Contents(), FlatMap(inp.stacks, StackMounts()), FlatMap(inp.Placed(), ServiceIngresses()), AuthSections(inp));
      VolumeEdges();
      IngressEdges();
      AuthEdges();
    }
  }

  /** The flags of one leg. */
  datatype Flags = Flags(out: bool, into: bool, observed: bool, declared: bool)

  function FlagsOf(deps: seq<Dependency>, key: string, name: string): Flags {
    Flags(
      exists d :: d in deps && name in d.via && d.source == key,
      exists d :: d in deps && name in d.via && Into(d, key),
      exists d :: d in deps && name in d.via && (d.source == key || Into(d, key)) && d.observed,
      exists d :: d in deps && name in d.via && (d.source == key || Into(d, key)) && d.declared)
  }

  function Flagged(before: Flags, d: Dependency, key: string, name: string): Flags {
    if name !in d.via then before
    else if d.source == key then Flags(true, before.into, before.observed || d.observed, before.declared || d.declared)
    else if d.target == key then Flags(before.out, true, before.observed || d.observed, before.declared || d.declared)
    else before
  }

  lemma OneMoreFlag(deps: seq<Dependency>, key: string, name: string, i: nat)
    requires i < |deps|
    ensures FlagsOf(deps[..i + 1], key, name) == Flagged(FlagsOf(deps[..i], key, name), deps[i], key, name)
  {
    var before, d, all := deps[..i], deps[i], deps[..i + 1];
    assert all == before + [d];
    SomeOrLast(before, d, (x: Dependency) => name in x.via && x.source == key);
    SomeOrLast(before, d, (x: Dependency) => name in x.via && Into(x, key));
    SomeOrLast(before, d, (x: Dependency) => name in x.via && (x.source == key || Into(x, key)) && x.observed);
    SomeOrLast(before, d, (x: Dependency) => name in x.via && (x.source == key || Into(x, key)) && x.declared);
  }

  lemma SomeOrLast(before: seq<Dependency>, d: Dependency, p: Dependency -> bool)
    ensures (exists x :: x in before + [d] && p(x)) <==> (exists x :: x in before && p(x)) || p(d)
  {
    assert forall x :: x in before + [d] <==> x in before || x == d;
  }

  lemma TwoItems(g: Graph, a: Item, b: Item)
    ensures PutAll(g, [a, b]) == Put(Put(g, a), b)
  {
    assert [a, b] == [a] + [b];
    PutAllAppend(g, [a], [b]);
    PutOne(g, a);
    PutOne(Put(g, a), b);
  }

  lemma ThreeItems(g: Graph, items: seq<Item>)
    requires |items| == 3
    ensures PutAll(g, items) == Put(Put(Put(g, items[0]), items[1]), items[2])
  {
    assert items == [items[0], items[1]] + [items[2]];
    PutAllAppend(g, [items[0], items[1]], [items[2]]);
    TwoItems(g, items[0], items[1]);
    PutOne(PutAll(g, [items[0], items[1]]), items[2]);
  }

  lemma ThreeSections(g: Graph, a: seq<Item>, b: seq<Item>, c: seq<Item>)
    ensures PutAll(g, a + b + c) == PutAll(PutAll(PutAll(g, a), b), c)
  {
    PutAllAppend(g, a + b, c);
    PutAllAppend(g, a, b);
  }

  lemma FourSections(g: Graph, a: seq<Item>, b: seq<Item>, c: seq<Item>, d: seq<Item>)
    ensures PutAll(g, a + b + c + d) == PutAll(PutAll(PutAll(PutAll(g, a), b), c), d)
  {
    PutAllAppend(g, a + b + c, d);
    ThreeSections(g, a, b, c);
  }

  method BuildGraph(inp: Input) returns (nodes: seq<Node>, edges: seq<Edge>)
    ensures nodes == Built(inp).nodes && edges == Built(inp).edges
  {
    var b := new Builder(inp);
    b.Build();
    nodes, edges := b.nodes, b.edges;
  }
}
