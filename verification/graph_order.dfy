/** The order in which the graph lists things (labview/internal/fleet/graph.go): nodes and edges come out grouped by kind,
    services in the order of the scan. */
module GraphOrder {
  import opened Lists
  import opened Fleet
  import opened Depends
  import opened Graphs
  import opened GraphLaws
  import opened GraphTheorems
  import GraphAuth
  import GraphContents

  function NodeRank(k: NodeKind): nat { if k.ServiceNode? then 0 else if k.NetworkNode? then 1 else if k.VolumeNode? then 2 else 3 }

  function EdgeRank(k: EdgeKind): nat {
    match k
    case NetworkEdge => 0
    case DependsOnEdge => 1
    case VolumeEdge => 2
    case IngressEdge => 3
    case AuthEdge => 4
  }

  /** Services, networks, volumes, then what is outside the fleet; and the edges diagram by diagram. */
  ghost predicate Grouped(g: Graph) {
    && (forall i, j :: 0 <= i < j < |g.nodes| ==> NodeRank(g.nodes[i].kind) <= NodeRank(g.nodes[j].kind))
    && forall i, j :: 0 <= i < j < |g.edges| ==> EdgeRank(g.edges[i].kind) <= EdgeRank(g.edges[j].kind)
  }

  /** Grouped, and no further than this kind of node and this kind of edge. */
  ghost predicate UpTo(g: Graph, n: nat, e: nat) {
    && Grouped(g)
    && (forall x :: x in g.nodes ==> NodeRank(x.kind) <= n)
    && forall x :: x in g.edges ==> EdgeRank(x.kind) <= e
  }

  ghost predicate OfKinds(it: Item, n: nat, e: nat) {
    if it.N? then NodeRank(it.node.kind) == n else EdgeRank(it.edge.kind) == e
  }

  lemma PutStays(g: Graph, it: Item, n: nat, e: nat)
    requires UpTo(g, n, e) && OfKinds(it, n, e)
    ensures UpTo(Put(g, it), n, e)
  {
    var g' := Put(g, it);
    assert forall i :: 0 <= i < |g.nodes| ==> g.nodes[i] in g.nodes;
    assert forall i :: 0 <= i < |g.edges| ==> g.edges[i] in g.edges;
  }

  /** A section of one kind of node and one kind of edge keeps the grouping. */
  lemma {:induction false} SectionStays(g: Graph, items: seq<Item>, n: nat, e: nat)
    requires UpTo(g, n, e) && forall it :: it in items ==> OfKinds(it, n, e)
    ensures UpTo(PutAll(g, items), n, e)
  {
    if items != [] {
      SplitLast(items);
      SectionStays(g, items[..|items| - 1], n, e);
      PutStays(PutAll(g, items[..|items| - 1]), items[|items| - 1], n, e);
    }
  }

  lemma NextSection(items: seq<Item>, more: seq<Item>, n: nat, e: nat, n': nat, e': nat)
    requires UpTo(PutAll(EMPTY, items), n, e) && n <= n' && e <= e' && forall it :: it in more ==> OfKinds(it, n', e')
    ensures UpTo(PutAll(EMPTY, items + more), n', e')
  {
    PutAllAppend(EMPTY, items, more);
    SectionStays(PutAll(EMPTY, items), more, n', e');
  }

  // ---------------------------------------------------------------------------
  // The sections
  // ---------------------------------------------------------------------------

  lemma ServicesAre(inp: Input, it: Item)
    requires it in FlatMap(inp.Placed(), ServiceItems(inp))
    ensures OfKinds(it, 0, 0)
  {
    FlatMapHas(inp.Placed(), ServiceItems(inp), it);
  }

  lemma NetworksAre(inp: Input, it: Item)
    requires it in FlatMap(inp.nets.order, NetworkItems(inp.nets))
    ensures OfKinds(it, 1, 0)
  {
    FlatMapHas(inp.nets.order, NetworkItems(inp.nets), it);
  }

  lemma VolumesAre(inp: Input, it: Item)
    requires it in FlatMap(inp.stacks, StackVolumeItems())
    ensures OfKinds(it, 2, 0)
  {
    FlatMapHas(inp.stacks, StackVolumeItems(), it);
    var stack :| stack in inp.stacks && it in StackVolumeItems()(stack);
    FlatMapHas(stack.volumes, VolumeItems(), it);
  }

  lemma MountsAre(inp: Input, it: Item)
    requires it in FlatMap(inp.stacks, StackMounts())
    ensures OfKinds(it, 2, 2)
  {
    if it.N? {
      GraphContents.RoutersEmit(inp, it.node);
    } else {
      GraphContents.MountsEmit(inp, it.edge);
    }
  }

  lemma PathsAre(inp: Input, it: Item)
    requires it in FlatMap(inp.Placed(), ServiceIngresses())
    ensures OfKinds(it, 3, 3)
  {
    if it.N? {
      GraphContents.HostsEmit(inp, it.node);
    } else {
      GraphContents.PathsAreIngress(inp, it.edge);
    }
  }

  lemma IdentityIsOutside(inp: Input, n: Node)
    requires N(n) in FlatMap(inp.Placed(), ServiceMatches()) || N(n) in FlatMap(inp.unmatchedApps, ApplicationItems())
    ensures n.kind.ExternalNode?
  {
    GraphContents.IdentitiesEmit(inp, n);
    var app :| GraphContents.IdentitySays(inp, app, n);
    GraphContents.IdentityIsBeyond(app, n);
  }

  lemma AuthNodeIsOutside(inp: Input, n: Node)
    requires N(n) in AuthSections(inp)
    ensures n.kind.ExternalNode?
  {
    GraphContents.RoutersEmit(inp, n);
    if N(n) !in FlatMap(inp.unmatchedRouters, UnmatchedRouterItems()) {
      IdentityIsOutside(inp, n);
    }
  }

  lemma AuthIs(inp: Input, it: Item)
    requires WellNamed(inp.Placed()) && it in AuthSections(inp)
    ensures OfKinds(it, 3, 4)
  {
    if it.E? {
      GraphContents.AuthIsAuth(inp, it.edge);
    } else {
      AuthNodeIsOutside(inp, it.node);
    }
  }

  lemma RelationsAre(inp: Input, it: Item)
    requires WellFed(inp)
    ensures it in FlatMap(inp.Placed(), ServiceMemberships(inp)) ==> OfKinds(it, 2, 0)
    ensures it in FlatMap(inp.deps, DependencyItems()) ==> OfKinds(it, 2, 1)
  {
    MembershipForm(inp, it);
    DependencyForm(inp, it);
  }

  lemma NodesStand(inp: Input)
    ensures UpTo(PutAll(EMPTY, NodeSections(inp)), 2, 0)
  {
    var a, b := FlatMap(inp.Placed(), ServiceItems(inp)), FlatMap(inp.nets.order, NetworkItems(inp.nets));
    forall it | it in a ensures OfKinds(it, 0, 0) { ServicesAre(inp, it); }
    SectionStays(EMPTY, a, 0, 0);
    forall it | it in b ensures OfKinds(it, 1, 0) { NetworksAre(inp, it); }
    NextSection(a, b, 0, 0, 1, 0);
    forall it | it in FlatMap(inp.stacks, StackVolumeItems()) ensures OfKinds(it, 2, 0) { VolumesAre(inp, it); }
    NextSection(a + b, FlatMap(inp.stacks, StackVolumeItems()), 1, 0, 2, 0);
  }

  lemma RelationsStand(inp: Input)
    requires WellFed(inp)
    ensures UpTo(PutAll(EMPTY, NodeSections(inp) + RelationSections(inp)), 2, 1)
  {
    var a, b := FlatMap(inp.Placed(), ServiceMemberships(inp)), FlatMap(inp.deps, DependencyItems());
    NodesStand(inp);
    forall it | it in a ensures OfKinds(it, 2, 0) { RelationsAre(inp, it); }
    NextSection(NodeSections(inp), a, 2, 0, 2, 0);
    forall it | it in b ensures OfKinds(it, 2, 1) { RelationsAre(inp, it); }
    NextSection(NodeSections(inp) + a, b, 2, 0, 2, 1);
    JoinLeft(NodeSections(inp), a, b);
  }

  /** The graph is grouped: services, networks, volumes, then everything outside; memberships, dependencies, volumes,
      paths, then identity. */
  lemma GraphIsGrouped(inp: Input)
    requires WellFed(inp) && WellNamed(inp.Placed())
    ensures Grouped(Built(inp))
  {
    var before := NodeSections(inp) + RelationSections(inp);
    var a, b := FlatMap(inp.stacks, StackMounts()), FlatMap(inp.Placed(), ServiceIngresses());
    RelationsStand(inp);
    forall it | it in a ensures OfKinds(it, 2, 2) { MountsAre(inp, it); }
    NextSection(before, a, 2, 1, 2, 2);
    forall it | it in b ensures OfKinds(it, 3, 3) { PathsAre(inp, it); }
    NextSection(before + a, b, 2, 2, 3, 3);
    forall it | it in AuthSections(inp) ensures OfKinds(it, 3, 4) { AuthIs(inp, it); }
    NextSection(before + a + b, AuthSections(inp), 3, 3, 3, 4);
    LastSections(before, a, b, AuthSections(inp));
  }

  lemma LastSections(before: seq<Item>, a: seq<Item>, b: seq<Item>, c: seq<Item>)
    ensures before + a + b + c == before + (a + b + c)
  {
  }

  // ---------------------------------------------------------------------------
  // Scan order
  // ---------------------------------------------------------------------------

  /** The nodes of the services, in order. */
  function ServiceNodes(inp: Input, placed: seq<Placed>): (r: seq<Node>)
    ensures |r| == |placed| && forall i :: 0 <= i < |r| ==> r[i] == ServiceOf(inp, placed[i])
  {
    seq(|placed|, i requires 0 <= i < |placed| => ServiceOf(inp, placed[i]))
  }

  ghost predicate OnlyServices(g: Graph, placed: seq<Placed>) { forall id :: id in g.seen ==> exists p :: p in placed && id == SVC + p.Key() }

  lemma NextService(inp: Input, g: Graph, before: seq<Placed>, p: Placed)
    requires g.nodes == ServiceNodes(inp, before) && OnlyServices(g, before) && forall q :: q in before ==> q.Key() != p.Key()
    ensures var g' := Put(g, N(ServiceOf(inp, p)));
      g'.nodes == ServiceNodes(inp, before + [p]) && OnlyServices(g', before + [p])
  {
    forall q | q in before ensures SVC + q.Key() != SVC + p.Key() {
      if SVC + q.Key() == SVC + p.Key() { DropPrefix(SVC, q.Key(), p.Key()); }
    }
    assert forall q :: q in before + [p] <==> q in before || q == p;
  }

  lemma {:induction false} ServicesComeFirst(inp: Input, placed: seq<Placed>)
    requires WellNamed(placed)
    ensures var g := PutAll(EMPTY, FlatMap(placed, ServiceItems(inp)));
      g.nodes == ServiceNodes(inp, placed) && OnlyServices(g, placed)
  {
    if placed != [] {
      var n := |placed| - 1;
      SplitLast(placed);
      ServicesComeFirst(inp, placed[..n]);
      SectionStep(EMPTY, placed, ServiceItems(inp), n);
      TakeAll(placed);
      PutOne(PutAll(EMPTY, FlatMap(placed[..n], ServiceItems(inp))), N(ServiceOf(inp, placed[n])));
      LastKeyIsNew(placed);
      NextService(inp, PutAll(EMPTY, FlatMap(placed[..n], ServiceItems(inp))), placed[..n], placed[n]);
    }
  }

  lemma LastKeyIsNew(placed: seq<Placed>)
    requires placed != [] && WellNamed(placed)
    ensures forall p :: p in placed[..|placed| - 1] ==> p.Key() != placed[|placed| - 1].Key()
  {
    KeysAreDistinct(placed);
    var n := |placed| - 1;
    forall p | p in placed[..n] ensures p.Key() != placed[n].Key() {
      var i :| 0 <= i < n && placed[i] == p;
      assert Keys(placed)[i] != Keys(placed)[n];
    }
  }

  lemma {:induction false} NodesStay(g: Graph, items: seq<Item>)
    ensures g.nodes <= PutAll(g, items).nodes
  {
    if items != [] {
      NodesStay(g, items[..|items| - 1]);
    }
  }

  /** The services open the graph, each by its key, in the order of the scan. */
  lemma ServicesInScanOrder(inp: Input, i: nat)
    requires WellNamed(inp.Placed()) && i < |inp.Placed()|
    ensures i < |Built(inp).nodes| && Built(inp).nodes[i].id == "svc:" + inp.Placed()[i].Key()
  {
    var a, b := FlatMap(inp.Placed(), ServiceItems(inp)), FlatMap(inp.nets.order, NetworkItems(inp.nets));
    var rest := FlatMap(inp.stacks, StackVolumeItems()) + RelationSections(inp) + OtherSections(inp);
    SectionsAre(inp, a, b, FlatMap(inp.stacks, StackVolumeItems()));
    JoinLeft(a, b, rest);
    PutAllAppend(EMPTY, a, b + rest);
    ServicesComeFirst(inp, inp.Placed());
    NodesStay(PutAll(EMPTY, a), b + rest);
  }
}
