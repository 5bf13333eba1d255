/** The paths of the ingress diagram against the routes they come from (labview/internal/fleet/graph.go): one edge for
    every source, target and caption, so not always one for every route. */
module RoutePaths {
  import opened Options
  import opened Lists
  import opened Fleet
  import opened Depends
  import opened Graphs
  import opened GraphLaws
  import opened GraphTheorems
  import Ordering

  datatype RoutePath = RoutePath(source: string, target: string, caption: string) {
    function Edge(): Graphs.Edge { PathEdge(source, target, caption) }
  }

  /** Where a tunnel route's hostname leads first: its hop, or the service itself. */
  function FirstStop(key: string, r: CloudRoute): string { if ThroughHop(r) then r.origin.value.hopKey else key }

  function FirstLeg(key: string, r: CloudRoute): RoutePath { RoutePath(HOST + r.hostname, SVC + FirstStop(key, r), "tunnel") }

  function SecondLeg(key: string, r: CloudRoute): RoutePath
    requires ThroughHop(r)
  {
    RoutePath(SVC + r.origin.value.hopKey, SVC + key, r.origin.value.address.raw)
  }

  /** The paths one tunnel route of one service is drawn as. */
  function CloudPaths(key: string, r: CloudRoute): seq<RoutePath> {
    if r.hostname == "" then [] else [FirstLeg(key, r)] + (if ThroughHop(r) then [SecondLeg(key, r)] else [])
  }

  /** A router has a path for each of its hosts. */
  ghost predicate RouterHas(key: string, r: TraefikRoute, x: RoutePath) {
    exists h :: h in r.hosts && x == RoutePath(HOST + h, SVC + key, r.router)
  }

  ghost predicate ServiceHas(p: Placed, x: RoutePath) {
    || (exists r :: r in p.svc.cloudflare && x in CloudPaths(p.Key(), r))
    || (exists r :: r in p.svc.traefik && RouterHas(p.Key(), r, x))
  }

  ghost predicate FleetHas(inp: Input, x: RoutePath) { exists p :: p in inp.Placed() && ServiceHas(p, x) }

  // ---------------------------------------------------------------------------
  // The paths emitted are the paths of the routes
  // ---------------------------------------------------------------------------

  /** The item draws a path rather than a hostname. */
  ghost predicate Draws(it: Item, x: RoutePath) { it == E(x.Edge()) && x.source != OUTSIDE }

  lemma HostnamesDrawNone(host: string, x: RoutePath)
    requires x.source != OUTSIDE
    ensures E(x.Edge()) !in HostnameItems(host)
  {
  }

  lemma LegsLeaveTheOutside(key: string, name: string)
    ensures HOST + name != OUTSIDE && SVC + key != OUTSIDE && HOST + name != SVC + key
  {
    assert (HOST + name)[0] == 'h' && (SVC + key)[0] == 's';
  }

  lemma PathsDiffer(x: RoutePath, y: RoutePath)
    ensures x.Edge() == y.Edge() <==> x == y
  {
  }

  lemma CloudDraws(key: string, r: CloudRoute, x: RoutePath)
    requires x.source != OUTSIDE
    ensures E(x.Edge()) in CloudItems(key)(r) <==> x in CloudPaths(key, r)
  {
    if r.hostname != "" {
      HostnamesDrawNone(r.hostname, x);
      PathsDiffer(x, FirstLeg(key, r));
      if ThroughHop(r) {
        PathsDiffer(x, SecondLeg(key, r));
        assert CloudItems(key)(r) == HostnameItems(r.hostname) + [E(FirstLeg(key, r).Edge()), E(SecondLeg(key, r).Edge())];
        assert CloudPaths(key, r) == [FirstLeg(key, r), SecondLeg(key, r)];
      } else {
        assert CloudItems(key)(r) == HostnameItems(r.hostname) + [E(FirstLeg(key, r).Edge())];
        assert CloudPaths(key, r) == [FirstLeg(key, r)];
      }
    }
  }

  lemma RouterDraws(key: string, r: TraefikRoute, x: RoutePath)
    requires x.source != OUTSIDE
    ensures E(x.Edge()) in RouterItems(key)(r) <==> RouterHas(key, r, x)
  {
    FlatMapHas(r.hosts, RouterHostItems(key, r.router), E(x.Edge()));
    forall h | h in r.hosts ensures E(x.Edge()) in RouterHostItems(key, r.router)(h) <==> x == RoutePath(HOST + h, SVC + key, r.router) {
      HostnamesDrawNone(h, x);
      PathsDiffer(x, RoutePath(HOST + h, SVC + key, r.router));
    }
  }

  lemma ServiceDraws(p: Placed, x: RoutePath)
    requires x.source != OUTSIDE
    ensures E(x.Edge()) in ServiceIngresses()(p) <==> ServiceHas(p, x)
  {
    FlatMapHas(p.svc.cloudflare, CloudItems(p.Key()), E(x.Edge()));
    FlatMapHas(p.svc.traefik, RouterItems(p.Key()), E(x.Edge()));
    forall r | r in p.svc.cloudflare ensures E(x.Edge()) in CloudItems(p.Key())(r) <==> x in CloudPaths(p.Key(), r) {
      CloudDraws(p.Key(), r, x);
    }
    forall r | r in p.svc.traefik ensures E(x.Edge()) in RouterItems(p.Key())(r) <==> RouterHas(p.Key(), r, x) {
      RouterDraws(p.Key(), r, x);
    }
  }

  lemma IngressDraws(inp: Input, x: RoutePath)
    requires x.source != OUTSIDE
    ensures E(x.Edge()) in FlatMap(inp.Placed(), ServiceIngresses()) <==> FleetHas(inp, x)
  {
    FlatMapHas(inp.Placed(), ServiceIngresses(), E(x.Edge()));
    forall p | p in inp.Placed() ensures E(x.Edge()) in ServiceIngresses()(p) <==> ServiceHas(p, x) {
      ServiceDraws(p, x);
    }
  }

  lemma ServicePathLeaves(p: Placed, x: RoutePath)
    requires ServiceHas(p, x)
    ensures x.source != OUTSIDE
  {
    if r :| r in p.svc.cloudflare && x in CloudPaths(p.Key(), r) {
      LegsLeaveTheOutside(FirstStop(p.Key(), r), r.hostname);
    } else {
      var r :| r in p.svc.traefik && RouterHas(p.Key(), r, x);
      var h :| h in r.hosts && x == RoutePath(HOST + h, SVC + p.Key(), r.router);
      LegsLeaveTheOutside(p.Key(), h);
    }
  }

  // ---------------------------------------------------------------------------
  // Only the ingress section draws ingress edges
  // ---------------------------------------------------------------------------

  ghost predicate NoIngress(items: seq<Item>) { forall it :: it in items && it.E? ==> !it.edge.kind.IngressEdge? }

  lemma {:induction false} NoIngressIn<A(!new)>(xs: seq<A>, f: A -> seq<Item>)
    requires forall x :: x in xs ==> NoIngress(f(x))
    ensures NoIngress(FlatMap(xs, f))
  {
    if xs != [] {
      SplitLast(xs);
      NoIngressIn(xs[..|xs| - 1], f);
    }
  }

  lemma MountsHaveNone(inp: Input)
    ensures NoIngress(FlatMap(inp.stacks, StackMounts()))
  {
    forall stack | stack in inp.stacks ensures NoIngress(StackMounts()(stack)) {
      forall p | p in InStack(stack) ensures NoIngress(ServiceMounts(stack)(p)) {
        NoIngressIn(p.svc.mounts, MountItems(stack, p.Key()));
      }
      NoIngressIn(InStack(stack), ServiceMounts(stack));
    }
    NoIngressIn(inp.stacks, StackMounts());
  }

  lemma ApplicationHasNone(app: Application)
    ensures NoIngress(ApplicationItems()(app))
  {
    forall p | p in app.providers ensures NoIngress(ProviderItems(app.slug)(p)) {
      NoIngressIn(Ordering.Sort(Ordering.StrLess, p.outposts), OutpostItems(p.name));
    }
    NoIngressIn(app.providers, ProviderItems(app.slug));
  }

  lemma MatchesHaveNone(p: Placed)
    ensures NoIngress(ServiceMatches()(p))
  {
    if p.svc.authentik.Some? {
      var ms := WithStrength(p.svc.authentik.value);
      forall m | m in ms ensures NoIngress(MatchItems(p.Key())(m)) { ApplicationHasNone(m.0); }
      NoIngressIn(ms, MatchItems(p.Key()));
    }
  }

  lemma AuthHasNone(inp: Input)
    ensures NoIngress(AuthSections(inp))
  {
    NoIngressIn(inp.gates, GateItems(inp));
    forall p | p in inp.Placed() ensures NoIngress(ServiceMatches()(p)) { MatchesHaveNone(p); }
    NoIngressIn(inp.Placed(), ServiceMatches());
    forall app | app in inp.unmatchedApps ensures NoIngress(ApplicationItems()(app)) { ApplicationHasNone(app); }
    NoIngressIn(inp.unmatchedApps, ApplicationItems());
    NoIngressIn(inp.unmatchedRouters, UnmatchedRouterItems());
  }

  lemma IngressComesFromRoutes(inp: Input, e: Edge)
    requires WellFed(inp) && E(e) in AllItems(inp) && e.kind.IngressEdge?
    ensures E(e) in FlatMap(inp.Placed(), ServiceIngresses())
  {
    if E(e) in NodeSections(inp) {
      NodesShaped(inp, E(e));
    } else if E(e) in RelationSections(inp) {
      RelationsShaped(inp, E(e));
    }
    MountsHaveNone(inp);
    AuthHasNone(inp);
  }

  // ---------------------------------------------------------------------------
  // The drawn paths
  // ---------------------------------------------------------------------------

  ghost predicate IsPath(inp: Input, e: Edge) {
    && e.caption.Plain?
    && FleetHas(inp, RoutePath(e.source, e.target, e.caption.text))
    && e == PathEdge(e.source, e.target, e.caption.text)
  }

  /** The graph draws exactly the paths of the fleet's routes: every one of them, as an edge with its source, target and
      caption, and no other beside the edges into the hostnames. */
  lemma PathsAreTheRoutes(inp: Input, e: Edge)
    requires WellFed(inp) && NamesAreClean(inp) && e.source != OUTSIDE && e.kind.IngressEdge?
    ensures e in Built(inp).edges <==> IsPath(inp, e)
  {
    PutAllKeeps(AllItems(inp));
    if e in Built(inp).edges {
      assert E(e) in AllItems(inp);
      IngressComesFromRoutes(inp, e);
      IngressIsFormed(inp, e);
      IngressDraws(inp, RoutePath(e.source, e.target, e.caption.text));
    }
    if IsPath(inp, e) {
      IngressDraws(inp, RoutePath(e.source, e.target, e.caption.text));
      assert E(e) in OtherSections(inp);
      EveryRouteIsDrawn(inp, e);
    }
  }

  /** Two paths of the fleet have one edge between them exactly when source, target and caption agree. */
  lemma PathsShareExactly(inp: Input, x: RoutePath, y: RoutePath)
    requires WellFed(inp) && NamesAreClean(inp) && FleetHas(inp, x) && FleetHas(inp, y)
    ensures x.Edge().id == y.Edge().id <==> x == y
  {
    PathIsClean(inp, x);
    PathIsClean(inp, y);
    if x.Edge().id == y.Edge().id {
      PathIdSplits(x.source, x.target, x.caption, y.source, y.target, y.caption);
    }
  }

  lemma PathIsClean(inp: Input, x: RoutePath)
    requires WellFed(inp) && NamesAreClean(inp) && FleetHas(inp, x)
    ensures '|' !in x.source && '|' !in x.target
  {
    var p :| p in inp.Placed() && ServiceHas(p, x);
    ServicePathLeaves(p, x);
    IngressDraws(inp, x);
    assert E(x.Edge()) in OtherSections(inp);
    IngressIsFormed(inp, x.Edge());
  }

  // ---------------------------------------------------------------------------
  // Which routes share a path
  // ---------------------------------------------------------------------------

  /** Two tunnel routes share a path exactly when they lead one hostname to one first stop, or run from one hop to one
      service by one origin address. The URL path of a route plays no part. */
  lemma TunnelsShare(k: string, r: CloudRoute, l: string, s: CloudRoute)
    ensures (exists x :: x in CloudPaths(k, r) && x in CloudPaths(l, s)) <==>
      r.hostname != "" && s.hostname != "" && (SameStart(k, r, l, s) || SameHandover(k, r, l, s))
  {
    if x :| x in CloudPaths(k, r) && x in CloudPaths(l, s) {
      SharedLegs(k, r, l, s, x);
    }
    if r.hostname != "" && s.hostname != "" && SameStart(k, r, l, s) {
      assert FirstLeg(k, r) == FirstLeg(l, s);
      assert FirstLeg(k, r) in CloudPaths(k, r) && FirstLeg(k, r) in CloudPaths(l, s);
    }
    if r.hostname != "" && s.hostname != "" && SameHandover(k, r, l, s) {
      SecondLegsAgree(k, r, l, s);
    }
  }

  ghost predicate SameStart(k: string, r: CloudRoute, l: string, s: CloudRoute) {
    r.hostname == s.hostname && FirstStop(k, r) == FirstStop(l, s)
  }

  ghost predicate SameHandover(k: string, r: CloudRoute, l: string, s: CloudRoute) {
    && ThroughHop(r)
    && ThroughHop(s)
    && r.origin.value.hopKey == s.origin.value.hopKey
    && k == l
    && r.origin.value.address.raw == s.origin.value.address.raw
  }

  lemma SecondLegsAgree(k: string, r: CloudRoute, l: string, s: CloudRoute)
    requires r.hostname != "" && s.hostname != "" && SameHandover(k, r, l, s)
    ensures SecondLeg(k, r) in CloudPaths(k, r) && SecondLeg(k, r) in CloudPaths(l, s)
  {
    assert SecondLeg(k, r) == SecondLeg(l, s);
    assert CloudPaths(k, r)[1] == SecondLeg(k, r) && CloudPaths(l, s)[1] == SecondLeg(l, s);
  }

  lemma SharedLegs(k: string, r: CloudRoute, l: string, s: CloudRoute, x: RoutePath)
    requires x in CloudPaths(k, r) && x in CloudPaths(l, s)
    ensures r.hostname != "" && s.hostname != "" && (SameStart(k, r, l, s) || SameHandover(k, r, l, s))
  {
    if x == FirstLeg(k, r) {
      if ThroughHop(s) { LegsLeaveTheOutside(s.origin.value.hopKey, r.hostname); }
      SameFirstLegs(k, r, l, s);
    } else {
      LegsLeaveTheOutside(r.origin.value.hopKey, s.hostname);
      SameSecondLegs(k, r, l, s);
    }
  }

  lemma SameFirstLegs(k: string, r: CloudRoute, l: string, s: CloudRoute)
    ensures FirstLeg(k, r) == FirstLeg(l, s) <==> SameStart(k, r, l, s)
  {
    if FirstLeg(k, r) == FirstLeg(l, s) {
      DropPrefix(HOST, r.hostname, s.hostname);
      DropPrefix(SVC, FirstStop(k, r), FirstStop(l, s));
    }
  }

  lemma SameSecondLegs(k: string, r: CloudRoute, l: string, s: CloudRoute)
    requires ThroughHop(r) && ThroughHop(s)
    ensures SecondLeg(k, r) == SecondLeg(l, s) <==> SameHandover(k, r, l, s)
  {
    if SecondLeg(k, r) == SecondLeg(l, s) {
      DropPrefix(SVC, r.origin.value.hopKey, s.origin.value.hopKey);
      DropPrefix(SVC, k, l);
    }
  }

  /** A tunnel route shares a path with a router exactly when the router is called `tunnel`, serves the route's hostname
      and belongs to the route's first stop. */
  lemma TunnelAndRouterShare(k: string, r: CloudRoute, l: string, t: TraefikRoute)
    ensures (exists x :: x in CloudPaths(k, r) && RouterHas(l, t, x)) <==>
      r.hostname != "" && r.hostname in t.hosts && FirstStop(k, r) == l && t.router == "tunnel"
  {
    if x :| x in CloudPaths(k, r) && RouterHas(l, t, x) {
      var h :| h in t.hosts && x == RoutePath(HOST + h, SVC + l, t.router);
      LegsLeaveTheOutside(FirstStop(k, r), h);
      assert x == FirstLeg(k, r);
      DropPrefix(HOST, h, r.hostname);
      DropPrefix(SVC, FirstStop(k, r), l);
    }
    if r.hostname != "" && r.hostname in t.hosts && FirstStop(k, r) == l && t.router == "tunnel" {
      assert FirstLeg(k, r) in CloudPaths(k, r) && RouterHas(l, t, FirstLeg(k, r));
    }
  }

  /** And two routers exactly when they belong to one service, have one name and serve a host in common. */
  lemma RoutersShare(k: string, r: TraefikRoute, l: string, t: TraefikRoute)
    ensures (exists x :: RouterHas(k, r, x) && RouterHas(l, t, x)) <==>
      k == l && r.router == t.router && exists h :: h in r.hosts && h in t.hosts
  {
    if x :| RouterHas(k, r, x) && RouterHas(l, t, x) {
      var h :| h in r.hosts && x == RoutePath(HOST + h, SVC + k, r.router);
      var i :| i in t.hosts && x == RoutePath(HOST + i, SVC + l, t.router);
      DropPrefix(HOST, h, i);
      DropPrefix(SVC, k, l);
    }
    if k == l && r.router == t.router && exists h :: h in r.hosts && h in t.hosts {
      var h :| h in r.hosts && h in t.hosts;
      var x := RoutePath(HOST + h, SVC + k, r.router);
      assert RouterHas(k, r, x) && RouterHas(l, t, x);
    }
  }

  // ---------------------------------------------------------------------------
  // Routes that collapse
  // ---------------------------------------------------------------------------

  ghost predicate DrawnOnce(g: Graph, e: Edge) {
    e in g.edges && forall i, j :: 0 <= i < |g.edges| && 0 <= j < |g.edges| && g.edges[i] == e == g.edges[j] ==> i == j
  }

  /** Two tunnel routes of one hostname to one service, on different URL paths, are drawn as one edge; and so is a
      router called `tunnel` on that hostname. */
  lemma RoutesCollapse(inp: Input, p: Placed, r: CloudRoute, s: CloudRoute)
    requires WellFed(inp) && NamesAreClean(inp) && p in inp.Placed() && r in p.svc.cloudflare && s in p.svc.cloudflare
    requires r.path != s.path && r.hostname == s.hostname != "" && !ThroughHop(r) && !ThroughHop(s)
    ensures CloudPaths(p.Key(), r) == CloudPaths(p.Key(), s) == [FirstLeg(p.Key(), r)]
    ensures DrawnOnce(Built(inp), FirstLeg(p.Key(), r).Edge())
    ensures forall t :: t in p.svc.traefik && r.hostname in t.hosts && t.router == "tunnel" ==> RouterHas(p.Key(), t, FirstLeg(p.Key(), r))
  {
    var x := FirstLeg(p.Key(), r);
    LegsLeaveTheOutside(p.Key(), r.hostname);
    assert x in CloudPaths(p.Key(), r);
    assert FleetHas(inp, x);
    PathsAreTheRoutes(inp, x.Edge());
    PutAllKeeps(AllItems(inp));
  }
}
