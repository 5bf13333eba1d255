/** What every graph built by Graphs satisfies: ids are unique though one set guards nodes and edges alike, and every
    edge joins two nodes that are there. */
module GraphLaws {
  import opened Options
  import opened Lists
  import opened Ordering
  import opened Fleet
  import opened Depends
  import opened Graphs
  import Nets = Networks

  // ---------------------------------------------------------------------------
  // Adding once
  // ---------------------------------------------------------------------------

  /** No id twice among the nodes, none twice among the edges, and none in both. */
  ghost predicate IdsAreUnique(g: Graph) {
    && (forall i, j :: 0 <= i < j < |g.nodes| ==> g.nodes[i].id != g.nodes[j].id)
    && (forall i, j :: 0 <= i < j < |g.edges| ==> g.edges[i].id != g.edges[j].id)
    && forall n, e :: n in g.nodes && e in g.edges ==> n.id != e.id
  }

  ghost predicate HasNode(g: Graph, id: string) { exists n :: n in g.nodes && n.id == id }

  ghost predicate HasEdge(g: Graph, id: string) { exists e :: e in g.edges && e.id == id }

  /** Everything kept was emitted, and everything emitted is kept under its id. */
  ghost predicate Kept(items: seq<Item>, g: Graph) {
    && (forall n :: n in g.nodes ==> N(n) in items) && (forall e :: e in g.edges ==> E(e) in items)
    && (forall id :: id in g.seen <==> HasNode(g, id) || HasEdge(g, id))
    && forall it :: it in items ==> Id(it) in g.seen
  }

  lemma PutKeeps(items: seq<Item>, g: Graph, it: Item)
    requires Kept(items, g) && IdsAreUnique(g)
    ensures Kept(items + [it], Put(g, it)) && IdsAreUnique(Put(g, it))
  {
    var g' := Put(g, it);
    assert forall x :: x in items + [it] <==> x in items || x == it;
    if Id(it) !in g.seen {
      assert forall n :: n in g'.nodes <==> n in g.nodes || it == N(n);
      assert forall e :: e in g'.edges <==> e in g.edges || it == E(e);
      forall n | n in g.nodes ensures n.id in g.seen { assert HasNode(g, n.id); }
      forall e | e in g.edges ensures e.id in g.seen { assert HasEdge(g, e.id); }
      SeenAfter(g, it);
    }
  }

  lemma SeenAfter(g: Graph, it: Item)
    requires forall id :: id in g.seen <==> HasNode(g, id) || HasEdge(g, id)
    requires Id(it) !in g.seen
    ensures forall id :: id in Put(g, it).seen <==> HasNode(Put(g, it), id) || HasEdge(Put(g, it), id)
  {
    var g' := Put(g, it);
    assert forall n :: n in g'.nodes <==> n in g.nodes || it == N(n);
    assert forall e :: e in g'.edges <==> e in g.edges || it == E(e);
    forall id ensures HasNode(g', id) <==> HasNode(g, id) || (it.N? && it.node.id == id) {}
    forall id ensures HasEdge(g', id) <==> HasEdge(g, id) || (it.E? && it.edge.id == id) {}
  }

  lemma {:induction false} PutAllKeeps(items: seq<Item>)
    ensures Kept(items, PutAll(EMPTY, items)) && IdsAreUnique(PutAll(EMPTY, items))
  {
    if items != [] {
      var n := |items| - 1;
      PutAllKeeps(items[..n]);
      PutKeeps(items[..n], PutAll(EMPTY, items[..n]), items[n]);
      assert items == items[..n] + [items[n]];
    }
  }

  // ---------------------------------------------------------------------------
  // Ids of nodes and ids of edges never meet
  // ---------------------------------------------------------------------------

  predicate NodeShape(id: string) {
    |id| >= 4 && (id[0] in {'s', 'h', 'p', 'o', 'r'} || (id[0] in {'n', 'v'} && id[3] == ':') || (id[0] == 'a' && id[1] == 'p'))
  }

  predicate EdgeShape(id: string, kind: EdgeKind) {
    |id| >= 4 &&
    match kind
    case NetworkEdge => id[0] == 'n' && id[3] == 'w'
    case DependsOnEdge => id[0] == 'd'
    case VolumeEdge => id[0] == 'v' && id[3] == 'u'
    case IngressEdge => id[0] == 'i'
    case AuthEdge => id[0] == 'a' && id[1] == 'u'
  }

  predicate Shaped(it: Item) {
    match it
    case N(n) => NodeShape(n.id)
    case E(e) => EdgeShape(e.id, e.kind)
  }

  lemma EdgeIdShape(kind: EdgeKind, source: string, target: string)
    ensures EdgeShape(EdgeId(kind, source, target), kind)
    ensures forall more :: EdgeShape(EdgeId(kind, source, target) + more, kind)
  {
    assert EdgeId(kind, source, target)[..|kind.Text()|] == kind.Text();
  }

  lemma PrefixShape(prefix: string, name: string)
    requires prefix in [SVC, NET, VOL, HOST, APP, PROVIDER, OUTPOST, ROUTER]
    ensures NodeShape(prefix + name)
  {
    assert forall i :: 0 <= i < |prefix| ==> (prefix + name)[i] == prefix[i];
  }

  lemma ShapesDiffer(id: string, kind: EdgeKind)
    ensures !(NodeShape(id) && EdgeShape(id, kind))
  {
  }

  lemma KindsShow(id: string, kind: EdgeKind, other: EdgeKind)
    requires EdgeShape(id, kind) && EdgeShape(id, other)
    ensures kind == other
  {
  }

  /** Emitted under a shape of its own, a node is kept as a node and an edge as an edge. */
  lemma EmittedIsThere(items: seq<Item>, it: Item)
    requires (forall x :: x in items ==> Shaped(x)) && it in items
    ensures var g := PutAll(EMPTY, items); if it.N? then HasNode(g, it.node.id) else HasEdge(g, it.edge.id)
  {
    var g := PutAll(EMPTY, items);
    PutAllKeeps(items);
    assert Id(it) in g.seen;
    if it.N? && HasEdge(g, it.node.id) {
      var e :| e in g.edges && e.id == it.node.id;
      assert Shaped(E(e));
      ShapesDiffer(e.id, e.kind);
    }
    if it.E? && HasNode(g, it.edge.id) {
      var n :| n in g.nodes && n.id == it.edge.id;
      assert Shaped(N(n));
      ShapesDiffer(n.id, it.edge.kind);
    }
  }

  // ---------------------------------------------------------------------------
  // Sections whose edges end at nodes
  // ---------------------------------------------------------------------------

  ghost predicate Reached(items: seq<Item>, known: set<string>, id: string) {
    id in known || exists n :: N(n) in items && n.id == id
  }

  /** An ingress edge is the one edge into a hostname, or one path of one route. */
  ghost predicate IngressForm(e: Edge) {
    || e == PlainEdge(IngressEdge, OUTSIDE, e.target, Plain(""))
    || (e.source != OUTSIDE && e.caption.Plain? && e == PathEdge(e.source, e.target, e.caption.text))
  }

  ghost predicate Minor(it: Item) {
    if it.N? then !it.node.kind.NetworkNode?
    else it.edge.kind.VolumeEdge? || it.edge.kind.AuthEdge? || (it.edge.kind.IngressEdge? && IngressForm(it.edge))
  }

  ghost predicate Ended(items: seq<Item>, known: set<string>, it: Item) {
    it.E? ==> Reached(items, known, it.edge.source) && Reached(items, known, it.edge.target)
  }

  /** Every item has its shape and is of the lesser kinds, and every edge ends at a known id or a node beside it. */
  ghost predicate Sound(items: seq<Item>, known: set<string>) {
    forall it :: it in items ==> Shaped(it) && Minor(it) && Ended(items, known, it)
  }

  /** A list may lean on what the list before it reached. */
  lemma SoundThen(a: seq<Item>, b: seq<Item>, known: set<string>, extra: set<string>)
    requires Sound(a, known) && Sound(b, known + extra)
    requires forall id :: id in extra ==> Reached(a, known, id)
    ensures Sound(a + b, known)
  {
    forall id | Reached(a, known, id) || Reached(b, known + extra, id) ensures Reached(a + b, known, id) {
      ReachedIn(a, b, known, extra, id);
    }
    forall it | it in a + b ensures Shaped(it) && Minor(it) && Ended(a + b, known, it) {
      if it in a {
        assert Ended(a, known, it);
      } else {
        assert Ended(b, known + extra, it);
      }
    }
  }

  lemma ReachedIn(a: seq<Item>, b: seq<Item>, known: set<string>, extra: set<string>, id: string)
    requires Reached(a, known, id) || Reached(b, known + extra, id)
    requires forall id :: id in extra ==> Reached(a, known, id)
    ensures Reached(a + b, known, id)
  {
    if id !in known {
      if Reached(a, known, id) {
        var n :| N(n) in a && n.id == id;
        assert N(n) in a + b;
      } else {
        var n :| N(n) in b && n.id == id;
        assert N(n) in a + b;
      }
    }
  }

  lemma {:induction false} SoundFlatMap<A(!new)>(xs: seq<A>, f: A -> seq<Item>, known: set<string>)
    requires forall x :: x in xs ==> Sound(f(x), known)
    ensures Sound(FlatMap(xs, f), known)
  {
    if xs != [] {
      SplitLast(xs);
      SoundFlatMap(xs[..|xs| - 1], f, known);
      assert known + {} == known;
      SoundThen(FlatMap(xs[..|xs| - 1], f), f(xs[|xs| - 1]), known, {});
    }
  }

  /** One more edge between ids already reached. */
  lemma SoundEdge(items: seq<Item>, e: Edge, known: set<string>)
    requires Sound(items, known) && EdgeShape(e.id, e.kind) && Minor(E(e))
    requires Reached(items, known, e.source) && Reached(items, known, e.target)
    ensures Sound(items + [E(e)], known)
  {
    assert Sound([E(e)], known + {e.source, e.target});
    SoundThen(items, [E(e)], known, {e.source, e.target});
  }

  lemma SoundPlain(items: seq<Item>, kind: EdgeKind, source: string, target: string, caption: Caption, known: set<string>)
    requires Sound(items, known) && Minor(E(PlainEdge(kind, source, target, caption)))
    requires Reached(items, known, source) && Reached(items, known, target)
    ensures Sound(items + [E(PlainEdge(kind, source, target, caption))], known)
  {
    EdgeIdShape(kind, source, target);
    SoundEdge(items, PlainEdge(kind, source, target, caption), known);
  }

  lemma SoundPath(items: seq<Item>, source: string, target: string, caption: string, known: set<string>)
    requires Sound(items, known) && Reached(items, known, source) && Reached(items, known, target) && source != OUTSIDE
    ensures Sound(items + [E(PathEdge(source, target, caption))], known)
  {
    EdgeIdShape(IngressEdge, source, target);
    assert EdgeId(IngressEdge, source, target) + ("|" + caption) == EdgeId(IngressEdge, source, target) + "|" + caption;
    SoundEdge(items, PathEdge(source, target, caption), known);
  }

  lemma SoundNode(items: seq<Item>, n: Node, known: set<string>)
    requires Sound(items, known) && NodeShape(n.id) && !n.kind.NetworkNode?
    ensures Sound(items + [N(n)], known) && Reached(items + [N(n)], known, n.id)
    ensures forall id :: Reached(items, known, id) ==> Reached(items + [N(n)], known, id)
  {
    var all := items + [N(n)];
    assert all[|items|] == N(n);
    forall id | Reached(items, known, id) ensures Reached(all, known, id) {
      ReachedIn(items, [N(n)], known, {}, id);
    }
    assert forall it :: it in items ==> Ended(items, known, it) ==> Ended(all, known, it);
  }

  // ---------------------------------------------------------------------------
  // The ingress sections
  // ---------------------------------------------------------------------------

  lemma HostnameSound(host: string, known: set<string>)
    ensures Sound(HostnameItems(host), known) && Reached(HostnameItems(host), known, HOST + host)
  {
    PrefixShape(HOST, host);
    var outside, name := Outsider(OUTSIDE, "outside"), Outsider(HOST + host, host);
    var e := PlainEdge(IngressEdge, OUTSIDE, HOST + host, Plain(""));
    SoundNode([], outside, known);
    SoundNode([N(outside)], name, known);
    var nodes := [N(outside)] + [N(name)];
    SoundPlain(nodes, IngressEdge, OUTSIDE, HOST + host, Plain(""), known);
    assert HostnameItems(host) == nodes + [E(e)];
    assert HostnameItems(host)[1] == N(name);
  }

  lemma CloudSound(key: string, r: CloudRoute, known: set<string>)
    requires SVC + key in known && (ThroughHop(r) ==> SVC + r.origin.value.hopKey in known)
    ensures Sound(CloudItems(key)(r), known)
  {
    if r.hostname != "" {
      HostnameSound(r.hostname, known);
      assert (HOST + r.hostname)[0] == 'h';
      if ThroughHop(r) {
        var hop := SVC + r.origin.value.hopKey;
        assert hop[0] == 's';
        var first := E(PathEdge(HOST + r.hostname, hop, "tunnel"));
        SoundPath(HostnameItems(r.hostname), HOST + r.hostname, hop, "tunnel", known);
        SoundPath(HostnameItems(r.hostname) + [first], hop, SVC + key, r.origin.value.address.raw, known);
        assert HostnameItems(r.hostname) + [first] + [E(PathEdge(hop, SVC + key, r.origin.value.address.raw))] == CloudItems(key)(r);
      } else {
        SoundPath(HostnameItems(r.hostname), HOST + r.hostname, SVC + key, "tunnel", known);
      }
    }
  }

  lemma RouterSound(key: string, r: TraefikRoute, known: set<string>)
    requires SVC + key in known
    ensures Sound(RouterItems(key)(r), known)
  {
    forall h | h in r.hosts ensures Sound(RouterHostItems(key, r.router)(h), known) {
      HostnameSound(h, known);
      assert (HOST + h)[0] == 'h';
      SoundPath(HostnameItems(h), HOST + h, SVC + key, r.router, known);
    }
    SoundFlatMap(r.hosts, RouterHostItems(key, r.router), known);
  }

  lemma IngressSound(p: Placed, known: set<string>)
    requires SVC + p.Key() in known
    requires forall r :: r in p.svc.cloudflare && ThroughHop(r) ==> SVC + r.origin.value.hopKey in known
    ensures Sound(ServiceIngresses()(p), known)
  {
    forall r | r in p.svc.cloudflare ensures Sound(CloudItems(p.Key())(r), known) {
      CloudSound(p.Key(), r, known);
    }
    forall r | r in p.svc.traefik ensures Sound(RouterItems(p.Key())(r), known) {
      RouterSound(p.Key(), r, known);
    }
    SoundFlatMap(p.svc.cloudflare, CloudItems(p.Key()), known);
    SoundFlatMap(p.svc.traefik, RouterItems(p.Key()), known);
    assert known + {} == known;
    SoundThen(FlatMap(p.svc.cloudflare, CloudItems(p.Key())), FlatMap(p.svc.traefik, RouterItems(p.Key())), known, {});
  }

  // ---------------------------------------------------------------------------
  // The identity sections
  // ---------------------------------------------------------------------------

  lemma OutpostSound(provider: string, outpost: string, known: set<string>)
    requires PROVIDER + provider in known
    ensures Sound(OutpostItems(provider)(outpost), known)
  {
    var n := Outsider(OUTPOST + outpost, outpost);
    PrefixShape(OUTPOST, outpost);
    SoundNode([], n, known);
    assert [] + [N(n)] == [N(n)];
    SoundPlain([N(n)], AuthEdge, OUTPOST + outpost, PROVIDER + provider, Plain(""), known);
    assert OutpostItems(provider)(outpost) == [N(n)] + [E(PlainEdge(AuthEdge, OUTPOST + outpost, PROVIDER + provider, Plain("")))];
  }

  lemma ProviderSound(slug: string, p: Provider, known: set<string>)
    requires APP + slug in known
    ensures Sound(ProviderItems(slug)(p), known)
  {
    var n, e := Outsider(PROVIDER + p.name, p.name), PlainEdge(AuthEdge, PROVIDER + p.name, APP + slug, OfProvider(p.kind));
    PrefixShape(PROVIDER, p.name);
    SoundNode([], n, known);
    assert [] + [N(n)] == [N(n)];
    SoundPlain([N(n)], AuthEdge, PROVIDER + p.name, APP + slug, OfProvider(p.kind), known);
    assert [N(n), E(e)] == [N(n)] + [E(e)];
    var extra := {PROVIDER + p.name};
    forall o | o in Sort(StrLess, p.outposts) ensures Sound(OutpostItems(p.name)(o), known + extra) {
      OutpostSound(p.name, o, known + extra);
    }
    SoundFlatMap(Sort(StrLess, p.outposts), OutpostItems(p.name), known + extra);
    assert [N(n), E(e)][0] == N(n);
    SoundThen([N(n), E(e)], FlatMap(Sort(StrLess, p.outposts), OutpostItems(p.name)), known, extra);
  }

  lemma ApplicationSound(app: Application, known: set<string>)
    ensures Sound(ApplicationItems()(app), known) && Reached(ApplicationItems()(app), known, APP + app.slug)
  {
    var n, extra := Outsider(APP + app.slug, app.name), {APP + app.slug};
    PrefixShape(APP, app.slug);
    SoundNode([], n, known);
    assert [] + [N(n)] == [N(n)];
    forall p | p in app.providers ensures Sound(ProviderItems(app.slug)(p), known + extra) {
      ProviderSound(app.slug, p, known + extra);
    }
    SoundFlatMap(app.providers, ProviderItems(app.slug), known + extra);
    SoundThen([N(n)], FlatMap(app.providers, ProviderItems(app.slug)), known, extra);
    assert ApplicationItems()(app)[0] == N(n);
  }

  lemma MatchesSound(p: Placed, known: set<string>)
    requires SVC + p.Key() in known
    ensures Sound(ServiceMatches()(p), known)
  {
    if p.svc.authentik.Some? {
      var ms := WithStrength(p.svc.authentik.value);
      forall m | m in ms ensures Sound(MatchItems(p.Key())(m), known) {
        ApplicationSound(m.0, known);
        SoundPlain(ApplicationItems()(m.0), AuthEdge, APP + m.0.slug, SVC + p.Key(), OfStrength(m.1), known);
      }
      SoundFlatMap(ms, MatchItems(p.Key()), known);
    }
  }

  // ---------------------------------------------------------------------------
  // The whole graph
  // ---------------------------------------------------------------------------

  /** What the earlier stages guarantee of the graph's input. */
  ghost predicate WellFed(inp: Input) {
    && (forall name :: name in inp.nets.byName <==> name in inp.nets.order)
    && (forall p, name :: p in inp.Placed() && name in Nets.Of(inp.nets, p.Key()) ==> name in inp.nets.byName)
    && (forall d :: d in inp.deps ==> inp.Has(d.source) && inp.Has(d.target))
    && forall p, r :: p in inp.Placed() && r in p.svc.cloudflare && ThroughHop(r) ==> inp.Has(r.origin.value.hopKey)
  }

  ghost function NodeIds(items: seq<Item>): set<string> { set it | it in items && it.N? :: it.node.id }

  lemma KeyIsPlaced(placed: seq<Placed>, key: string) returns (p: Placed)
    requires key in Keys(placed)
    ensures p in placed && p.Key() == key
  {
    var i :| 0 <= i < |placed| && Keys(placed)[i] == key;
    p := placed[i];
  }

  lemma PlacedHasKey(placed: seq<Placed>, p: Placed)
    requires p in placed
    ensures p.Key() in Keys(placed)
  {
    var i :| 0 <= i < |placed| && placed[i] == p;
    assert Keys(placed)[i] == p.Key();
  }

  lemma ServiceIsKnown(inp: Input, key: string)
    requires inp.Has(key)
    ensures SVC + key in NodeIds(NodeSections(inp))
  {
    var p := KeyIsPlaced(inp.Placed(), key);
    var it := N(ServiceOf(inp, p));
    assert it in ServiceItems(inp)(p);
    FlatMapHas(inp.Placed(), ServiceItems(inp), it);
    assert it in NodeSections(inp);
  }

  lemma NetworkIsKnown(inp: Input, name: string)
    requires IsDrawn(inp.nets, name) && name in inp.nets.order
    ensures NET + name in NodeIds(NodeSections(inp))
  {
    var it := N(NetworkOf(inp.nets, name));
    assert it in NetworkItems(inp.nets)(name);
    FlatMapHas(inp.nets.order, NetworkItems(inp.nets), it);
    assert it in NodeSections(inp);
  }

  lemma VolumeIsKnown(inp: Input, stack: Stack, name: string)
    requires stack in inp.stacks && name in stack.volumes
    ensures VOL + name in NodeIds(NodeSections(inp))
  {
    var it := N(VolumeOf(name));
    assert it in VolumeItems()(name);
    FlatMapHas(stack.volumes, VolumeItems(), it);
    assert it in StackVolumeItems()(stack);
    FlatMapHas(inp.stacks, StackVolumeItems(), it);
    assert it in NodeSections(inp);
  }

  lemma {:induction false} DeclaredVolumeIs(stack: Stack, volumes: seq<string>, source: string)
    ensures DeclaredVolume(stack, volumes, source).Some? ==> DeclaredVolume(stack, volumes, source).value in volumes
  {
    if volumes != [] {
      DeclaredVolumeIs(stack, volumes[1..], source);
    }
  }

  lemma MountsSound(inp: Input, stack: Stack, p: Placed, known: set<string>)
    requires SVC + p.Key() in known && forall v :: v in stack.volumes ==> VOL + v in known
    ensures Sound(ServiceMounts(stack)(p), known)
  {
    forall m | m in p.svc.mounts ensures Sound(MountItems(stack, p.Key())(m), known) {
      DeclaredVolumeIs(stack, stack.volumes, m.source);
      if MountItems(stack, p.Key())(m) != [] {
        var name := DeclaredVolume(stack, stack.volumes, m.source).value;
        SoundPlain([], VolumeEdge, SVC + p.Key(), VOL + name, Plain(m.target), known);
        assert [] + MountItems(stack, p.Key())(m) == MountItems(stack, p.Key())(m);
      }
    }
    SoundFlatMap(p.svc.mounts, MountItems(stack, p.Key()), known);
  }

  lemma StackMountsSound(inp: Input, stack: Stack, known: set<string>)
    requires known == NodeIds(NodeSections(inp)) && stack in inp.stacks
    ensures Sound(StackMounts()(stack), known)
  {
    forall p | p in InStack(stack) ensures Sound(ServiceMounts(stack)(p), known) {
      FlatMapHas(inp.stacks, InStack, p);
      PlacedHasKey(inp.Placed(), p);
      ServiceIsKnown(inp, p.Key());
      forall v | v in stack.volumes ensures VOL + v in known { VolumeIsKnown(inp, stack, v); }
      MountsSound(inp, stack, p, known);
    }
    SoundFlatMap(InStack(stack), ServiceMounts(stack), known);
  }

  lemma GateSound(inp: Input, g: (string, string), known: set<string>)
    requires known == NodeIds(NodeSections(inp))
    ensures Sound(GateItems(inp)(g), known)
  {
    if GateItems(inp)(g) != [] {
      ServiceIsKnown(inp, g.0);
      ServiceIsKnown(inp, g.1);
      SoundPlain([], AuthEdge, SVC + g.1, SVC + g.0, OfMethod(AuthOf(inp.Placed(), g.0)), known);
      assert [] + GateItems(inp)(g) == GateItems(inp)(g);
    }
  }

  lemma UnmatchedRouterSound(r: (string, string), known: set<string>)
    ensures Sound(UnmatchedRouterItems()(r), known)
  {
    var id := ROUTER + r.0 + "@" + r.1;
    assert id == ROUTER + (r.0 + "@" + r.1);
    PrefixShape(ROUTER, r.0 + "@" + r.1);
    SoundNode([], Outsider(id, r.0), known);
    assert [] + UnmatchedRouterItems()(r) == UnmatchedRouterItems()(r);
  }

  lemma SoundBoth(a: seq<Item>, b: seq<Item>, known: set<string>)
    requires Sound(a, known) && Sound(b, known)
    ensures Sound(a + b, known)
  {
    assert known + {} == known;
    SoundThen(a, b, known, {});
  }

  lemma ServiceSectionsSound(inp: Input, known: set<string>)
    requires WellFed(inp) && known == NodeIds(NodeSections(inp))
    ensures Sound(FlatMap(inp.Placed(), ServiceIngresses()), known) && Sound(FlatMap(inp.Placed(), ServiceMatches()), known)
  {
    forall p | p in inp.Placed() ensures Sound(ServiceIngresses()(p), known) && Sound(ServiceMatches()(p), known) {
      PlacedHasKey(inp.Placed(), p);
      ServiceIsKnown(inp, p.Key());
      forall r | r in p.svc.cloudflare && ThroughHop(r) ensures SVC + r.origin.value.hopKey in known {
        ServiceIsKnown(inp, r.origin.value.hopKey);
      }
      IngressSound(p, known);
      MatchesSound(p, known);
    }
    SoundFlatMap(inp.Placed(), ServiceIngresses(), known);
    SoundFlatMap(inp.Placed(), ServiceMatches(), known);
  }

  lemma AuthSound(inp: Input, known: set<string>)
    requires WellFed(inp) && known == NodeIds(NodeSections(inp))
    ensures Sound(AuthSections(inp), known)
  {
    var a, b := FlatMap(inp.gates, GateItems(inp)), FlatMap(inp.Placed(), ServiceMatches());
    var c, d := FlatMap(inp.unmatchedApps, ApplicationItems()), FlatMap(inp.unmatchedRouters, UnmatchedRouterItems());
    forall g | g in inp.gates ensures Sound(GateItems(inp)(g), known) { GateSound(inp, g, known); }
    SoundFlatMap(inp.gates, GateItems(inp), known);
    ServiceSectionsSound(inp, known);
    forall app | app in inp.unmatchedApps ensures Sound(ApplicationItems()(app), known) { ApplicationSound(app, known); }
    SoundFlatMap(inp.unmatchedApps, ApplicationItems(), known);
    forall r | r in inp.unmatchedRouters ensures Sound(UnmatchedRouterItems()(r), known) { UnmatchedRouterSound(r, known); }
    SoundFlatMap(inp.unmatchedRouters, UnmatchedRouterItems(), known);
    SoundBoth(a, b, known);
    SoundBoth(a + b, c, known);
    SoundBoth(a + b + c, d, known);
  }

  /** Every section after the relation ones. */
  lemma OthersSound(inp: Input)
    requires WellFed(inp)
    ensures Sound(OtherSections(inp), NodeIds(NodeSections(inp)))
  {
    var known := NodeIds(NodeSections(inp));
    forall stack | stack in inp.stacks ensures Sound(StackMounts()(stack), known) { StackMountsSound(inp, stack, known); }
    SoundFlatMap(inp.stacks, StackMounts(), known);
    ServiceSectionsSound(inp, known);
    AuthSound(inp, known);
    SoundBoth(FlatMap(inp.stacks, StackMounts()), FlatMap(inp.Placed(), ServiceIngresses()), known);
    SoundBoth(FlatMap(inp.stacks, StackMounts()) + FlatMap(inp.Placed(), ServiceIngresses()), AuthSections(inp), known);
  }

  /** An item of the membership section is the edge of one service and one drawn network it is on. */
  lemma MembershipForm(inp: Input, it: Item)
    ensures it in FlatMap(inp.Placed(), ServiceMemberships(inp)) <==>
      exists p, name :: p in inp.Placed() && name in Nets.Of(inp.nets, p.Key()) && IsDrawn(inp.nets, name)
        && it == E(MembershipEdge(inp.deps, p.Key(), name))
  {
    FlatMapHas(inp.Placed(), ServiceMemberships(inp), it);
    forall p | p in inp.Placed() {
      FlatMapHas(Nets.Of(inp.nets, p.Key()), MembershipItems(inp, p.Key()), it);
    }
  }

  lemma DependencyForm(inp: Input, it: Item)
    ensures it in FlatMap(inp.deps, DependencyItems()) <==> exists d :: d in inp.deps && it == E(DependencyEdge(d))
  {
    FlatMapHas(inp.deps, DependencyItems(), it);
  }
}
