/** A whole scan with two tunnel routes drawn as one path: one service, one hostname, two URL paths, and origins that lead
    back to the service itself. */
module CollapsingRoutes {
  import opened Options
  import opened Text
  import opened Lists
  import opened Vocabulary
  import opened Fleet
  import opened Depends
  import opened Graphs
  import opened GraphLaws
  import opened GraphTheorems
  import opened RoutePaths
  import Pipeline
  import Nets = Networks
  import O = Origins
  import FleetIndex
  import DependencyLaws

  function To(port: string): Address { Address("http://web:" + port, "web", port, false, true) }

  function Route(path: string, port: string, origin: Option<OriginTarget>): CloudRoute {
    CloudRoute("lab.example", path, "http://web:" + port, To(port), origin)
  }

  function Scanned(path: string, port: string): CloudRoute { Route(path, port, None) }

  function Settled(path: string, port: string): CloudRoute { Route(path, port, Some(OriginTarget(To(port), SelfNetwork, ""))) }

  function Web(routes: seq<CloudRoute>): Placed {
    Placed("arr", Service("web", "", [], [], [], [], [], routes, [], [], NoAuth, false, None, None, None, None, []))
  }

  function Before(): seq<Placed> { [Web([Scanned("", "80"), Scanned("/api", "8080")])] }

  function After(): Placed { Web([Settled("", "80"), Settled("/api", "8080")]) }

  function Scan(): Input {
    Input([Stack("arr", "arr", [After().svc], [], [])], Nets.IndexOf([], {}), [], {}, [], [], [])
  }

  lemma OneMapped<A, B>(x: A, f: A -> seq<B>)
    ensures FlatMap([x], f) == f(x)
  {
    assert [x][..0] == [];
    assert FlatMap([x][..0], f) == [];
  }

  lemma ScanIsPlaced()
    ensures Scan().Placed() == [After()]
  {
    OneMapped(Scan().stacks[0], InStack);
    assert InStack(Scan().stacks[0]) == [After()];
  }

  // ---------------------------------------------------------------------------
  // It comes out of the pipeline
  // ---------------------------------------------------------------------------

  lemma OriginIsItself(ix: FleetIndex.Index, nets: Nets.Index, svc: Service, path: string, port: string)
    requires svc.name == "web"
    ensures O.RouteResolved(ix, nets, "arr/web", svc, Scanned(path, port)) == Settled(path, port)
    ensures O.RouteNotes(ix, nets, "arr/web", svc, Scanned(path, port)) == []
  {
    assert Trim("web") == "web" && Lower("web") == "web";
    assert O.NamesSelf(svc, "web");
    assert O.ResolveOrigin(ix, nets, "arr/web", svc, To(port)) == (OriginTarget(To(port), SelfNetwork, ""), []);
  }

  lemma OriginsAreSettled(ix: FleetIndex.Index, nets: Nets.Index)
    ensures O.Resolved(ix, nets, Before()[0]) == After()
  {
    var svc := Before()[0].svc;
    OriginIsItself(ix, nets, svc, "", "80");
    OriginIsItself(ix, nets, svc, "/api", "8080");
    assert Before()[0].Key() == "arr/web";
    TwoRoutes(ix, nets, "arr/web", svc);
  }

  lemma TwoRoutes(ix: FleetIndex.Index, nets: Nets.Index, key: string, svc: Service)
    requires |svc.cloudflare| == 2
    ensures O.RoutesUpTo(ix, nets, key, svc, 2)
         == [O.RouteResolved(ix, nets, key, svc, svc.cloudflare[0]), O.RouteResolved(ix, nets, key, svc, svc.cloudflare[1])]
    ensures O.NotesUpTo(ix, nets, key, svc, 2)
         == O.RouteNotes(ix, nets, key, svc, svc.cloudflare[0]) + O.RouteNotes(ix, nets, key, svc, svc.cloudflare[1])
  {
    assert O.RoutesUpTo(ix, nets, key, svc, 1) == [O.RouteResolved(ix, nets, key, svc, svc.cloudflare[0])];
    assert O.NotesUpTo(ix, nets, key, svc, 1) == O.RouteNotes(ix, nets, key, svc, svc.cloudflare[0]);
  }

  lemma NothingAttached()
    ensures Nets.Attachments(Before()) == []
  {
    OneMapped(Before()[0], Nets.AttachmentsOf);
  }

  lemma NothingClaimed(ix: FleetIndex.Index, p: Placed)
    requires p.svc.dependsOn == [] && p.svc.declared.None?
    ensures Outcomes(ix, [p]) == []
  {
    assert [p][..0] == [];
    assert Outcomes(ix, [p][..0]) == [];
    assert ComposeOutcomes(ix, p, []) == [] && RefOutcomes(ix, p, "", []) == [];
    assert ServiceOutcomes(ix, p) == [];
  }

  lemma NothingEnriched(p: Placed)
    ensures Pipeline.AllEnriched([p], [p])
  {
  }

  lemma BeforeIsUnresolved()
    ensures WellNamed(Before()) && forall p, r :: p in Before() && r in p.svc.cloudflare ==> r.origin.None?
  {
    assert '/' !in "arr";
  }

  lemma OriginsLeave(ix: FleetIndex.Index, nets: Nets.Index)
    ensures Pipeline.AfterOrigins(ix, nets, Before()) == [After()]
  {
    OriginsAreSettled(ix, nets);
  }

  lemma ScanIsThePipelines()
    ensures Pipeline.FromPipeline(Scan(), Before(), {})
  {
    var ix, nets := FleetIndex.IndexOf(Before()), Nets.IndexOf([], {});
    BeforeIsUnresolved();
    NothingAttached();
    OriginsLeave(ix, nets);
    ScanIsPlaced();
    NothingEnriched(After());
    NothingClaimed(ix, After());
    assert Depends.After(nets, []).resolved == [];
  }

  // ---------------------------------------------------------------------------
  // Its names are clean
  // ---------------------------------------------------------------------------

  ghost predicate Clean(items: seq<Item>) { forall n :: N(n) in items ==> '|' !in n.id }

  lemma RouteIsClean(key: string, r: CloudRoute)
    requires '|' !in r.hostname && !ThroughHop(r)
    ensures Clean(CloudItems(key)(r))
  {
    var items := CloudItems(key)(r);
    assert '|' !in HOST && '|' !in OUTSIDE;
    forall n | N(n) in items ensures '|' !in n.id {
      assert N(n) == items[0] || N(n) == items[1];
    }
  }

  lemma ServiceIsClean(p: Placed)
    requires p.svc.traefik == [] && forall r :: r in p.svc.cloudflare ==> '|' !in r.hostname && !ThroughHop(r)
    ensures Clean(ServiceIngresses()(p))
  {
    forall n | N(n) in ServiceIngresses()(p) ensures '|' !in n.id {
      FlatMapHas(p.svc.cloudflare, CloudItems(p.Key()), N(n));
      assert FlatMap(p.svc.traefik, RouterItems(p.Key())) == [];
      var r :| r in p.svc.cloudflare && N(n) in CloudItems(p.Key())(r);
      RouteIsClean(p.Key(), r);
    }
  }

  lemma RoutesAreDirect(r: CloudRoute)
    requires r in After().svc.cloudflare
    ensures '|' !in r.hostname && !ThroughHop(r)
  {
    assert r == Settled("", "80") || r == Settled("/api", "8080");
    assert '|' !in "lab.example";
  }

  lemma PathsAreClean()
    ensures Clean(FlatMap(Scan().Placed(), ServiceIngresses()))
  {
    ScanIsPlaced();
    OneMapped(After(), ServiceIngresses());
    forall r | r in After().svc.cloudflare ensures '|' !in r.hostname && !ThroughHop(r) { RoutesAreDirect(r); }
    ServiceIsClean(After());
  }

  /** A fleet of one service, no network and no volume draws one node before its paths. */
  lemma OneNode(inp: Input, stack: Stack, p: Placed)
    requires inp.stacks == [stack] && inp.Placed() == [p] && inp.nets.order == [] && stack.volumes == []
    ensures NodeSections(inp) == [N(ServiceOf(inp, p))]
  {
    OneMapped(p, ServiceItems(inp));
    OneMapped(stack, StackVolumeItems());
  }

  lemma KeyIsClean()
    ensures '|' !in SVC + After().Key()
  {
    assert '|' !in SVC && '|' !in "arr" && '|' !in "/" && '|' !in "web";
  }

  lemma NodesAreClean()
    ensures Clean(NodeSections(Scan()))
  {
    ScanIsPlaced();
    OneNode(Scan(), Scan().stacks[0], After());
    KeyIsClean();
  }

  lemma RelationsAreClean()
    ensures Clean(RelationSections(Scan()))
  {
    ScanIsPlaced();
    OneMapped(After(), ServiceMemberships(Scan()));
    assert Nets.Of(Scan().nets, After().Key()) == [];
    assert RelationSections(Scan()) == [];
  }

  lemma RestIsEmpty()
    ensures FlatMap(Scan().stacks, StackMounts()) == [] && AuthSections(Scan()) == []
  {
    ScanIsPlaced();
    OneMapped(Scan().stacks[0], StackMounts());
    assert InStack(Scan().stacks[0]) == [After()];
    OneMapped(After(), ServiceMounts(Scan().stacks[0]));
    OneMapped(After(), ServiceMatches());
  }

  lemma ScanIsClean()
    ensures NamesAreClean(Scan())
  {
    PathsAreClean();
    NodesAreClean();
    RelationsAreClean();
    RestIsEmpty();
  }

  // ---------------------------------------------------------------------------
  // And it draws one path for two routes
  // ---------------------------------------------------------------------------

  /** A scan the pipeline can produce whose one service has two tunnel routes on different URL paths, each with its origin
      resolved to the service itself, and whose graph draws one path for both. */
  lemma RoutesMayCollapse() returns (inp: Input, scanned: seq<Placed>, p: Placed, r: CloudRoute, s: CloudRoute)
    ensures Pipeline.FromPipeline(inp, scanned, {}) && NamesAreClean(inp)
    ensures p in inp.Placed() && r in p.svc.cloudflare && s in p.svc.cloudflare
    ensures r.path != s.path && r.address != s.address && r.hostname == s.hostname != ""
    ensures r.origin.Some? && r.origin.value.kind.SelfNetwork? && s.origin.Some? && s.origin.value.kind.SelfNetwork?
    ensures CloudPaths(p.Key(), r) == CloudPaths(p.Key(), s) == [FirstLeg(p.Key(), r)]
    ensures DrawnOnce(Built(inp), FirstLeg(p.Key(), r).Edge())
  {
    inp, scanned, p, r, s := Scan(), Before(), After(), Settled("", "80"), Settled("/api", "8080");
    ScanIsPlaced();
    ScanIsThePipelines();
    ScanIsClean();
    Pipeline.PipelineIsOneScan(inp, scanned, {});
    ScanIsWellFed(inp, {});
    assert p.svc.cloudflare[0] == r && p.svc.cloudflare[1] == s && |r.path| != |s.path|;
    RoutesCollapse(inp, p, r, s);
  }
}
