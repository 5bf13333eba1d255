/** The promises of the graph: it is closed, its arrowheads are exact, every route keeps a path of its own, and it
    draws exactly the networks that are not solo-local. */
module GraphTheorems {
  import opened Options
  import opened Lists
  import opened Fleet
  import opened Depends
  import opened Graphs
  import opened GraphLaws
  import Nets = Networks
  import DependencyLaws
  import Origins
  import FleetIndex

  // ---------------------------------------------------------------------------
  // Closed
  // ---------------------------------------------------------------------------

  lemma NodesShaped(inp: Input, it: Item)
    requires it in NodeSections(inp)
    ensures it.N? && Shaped(it)
  {
    FlatMapHas(inp.Placed(), ServiceItems(inp), it);
    FlatMapHas(inp.nets.order, NetworkItems(inp.nets), it);
    if it in FlatMap(inp.stacks, StackVolumeItems()) {
      FlatMapHas(inp.stacks, StackVolumeItems(), it);
      var stack :| stack in inp.stacks && it in StackVolumeItems()(stack);
      FlatMapHas(stack.volumes, VolumeItems(), it);
      var v :| v in stack.volumes && it in VolumeItems()(v);
      PrefixShape(VOL, v);
    } else if it in FlatMap(inp.Placed(), ServiceItems(inp)) {
      var p :| p in inp.Placed() && it in ServiceItems(inp)(p);
      PrefixShape(SVC, p.Key());
    } else {
      var name :| name in inp.nets.order && it in NetworkItems(inp.nets)(name);
      PrefixShape(NET, name);
    }
  }

  ghost predicate EndsKnown(inp: Input, e: Edge) {
    e.source in NodeIds(NodeSections(inp)) && e.target in NodeIds(NodeSections(inp))
  }

  lemma RelationsShaped(inp: Input, it: Item)
    requires WellFed(inp) && it in RelationSections(inp)
    ensures it.E? && Shaped(it) && EndsKnown(inp, it.edge) && (it.edge.kind.NetworkEdge? || it.edge.kind.DependsOnEdge?)
    ensures it.edge.kind.NetworkEdge? <==> it in FlatMap(inp.Placed(), ServiceMemberships(inp))
  {
    MembershipForm(inp, it);
    DependencyForm(inp, it);
    if it in FlatMap(inp.Placed(), ServiceMemberships(inp)) {
      var p, name :| p in inp.Placed() && name in Nets.Of(inp.nets, p.Key()) && IsDrawn(inp.nets, name)
        && it == E(MembershipEdge(inp.deps, p.Key(), name));
      PlacedHasKey(inp.Placed(), p);
      ServiceIsKnown(inp, p.Key());
      NetworkIsKnown(inp, name);
      EdgeIdShape(NetworkEdge, SVC + p.Key(), NET + name);
    } else {
      var d :| d in inp.deps && it == E(DependencyEdge(d));
      ServiceIsKnown(inp, d.source);
      ServiceIsKnown(inp, d.target);
      EdgeIdShape(DependsOnEdge, SVC + d.source, SVC + d.target);
    }
  }

  lemma EverythingShaped(inp: Input, it: Item)
    requires WellFed(inp) && it in AllItems(inp)
    ensures Shaped(it)
  {
    if it in NodeSections(inp) {
      NodesShaped(inp, it);
    } else if it in RelationSections(inp) {
      RelationsShaped(inp, it);
    } else {
      OthersSound(inp);
    }
  }

  lemma ItemIsThere(inp: Input, it: Item)
    requires WellFed(inp) && it in AllItems(inp)
    ensures if it.N? then HasNode(Built(inp), it.node.id) else HasEdge(Built(inp), it.edge.id)
  {
    forall x | x in AllItems(inp) ensures Shaped(x) { EverythingShaped(inp, x); }
    EmittedIsThere(AllItems(inp), it);
  }

  lemma KnownIsThere(inp: Input, id: string)
    requires WellFed(inp) && id in NodeIds(NodeSections(inp))
    ensures HasNode(Built(inp), id)
  {
    var it :| it in NodeSections(inp) && it.N? && it.node.id == id;
    ItemIsThere(inp, it);
  }

  lemma ReachedIsThere(inp: Input, id: string)
    requires WellFed(inp) && Reached(OtherSections(inp), NodeIds(NodeSections(inp)), id)
    ensures HasNode(Built(inp), id)
  {
    if id in NodeIds(NodeSections(inp)) {
      KnownIsThere(inp, id);
    } else {
      var n :| N(n) in OtherSections(inp) && n.id == id;
      ItemIsThere(inp, N(n));
    }
  }

  /** For every fleet: no two nodes and no two edges share an id, no edge shares one with a node though one set guards
      both, and both ends of every edge are nodes of the graph. */
  lemma GraphIsClosed(inp: Input, e: Edge)
    requires WellFed(inp)
    ensures IdsAreUnique(Built(inp))
    ensures e in Built(inp).edges ==> HasNode(Built(inp), e.source) && HasNode(Built(inp), e.target)
  {
    PutAllKeeps(AllItems(inp));
    if e in Built(inp).edges {
      assert E(e) in AllItems(inp);
      if E(e) in NodeSections(inp) {
        NodesShaped(inp, E(e));
      } else if E(e) in RelationSections(inp) {
        RelationsShaped(inp, E(e));
        KnownIsThere(inp, e.source);
        KnownIsThere(inp, e.target);
      } else {
        OthersSound(inp);
        assert Ended(OtherSections(inp), NodeIds(NodeSections(inp)), E(e));
        ReachedIsThere(inp, e.source);
        ReachedIsThere(inp, e.target);
      }
    }
  }

  // ---------------------------------------------------------------------------
  // One edge per relation
  // ---------------------------------------------------------------------------

  /** A separator that neither left half holds splits at one place. */
  lemma SplitsOnce(a: string, b: string, c: string, d: string)
    requires '|' !in a && '|' !in c && a + "|" + b == c + "|" + d
    ensures a == c && b == d
  {
    var s, t := a + "|" + b, c + "|" + d;
    assert forall i :: 0 <= i < |a| ==> s[i] == a[i] && a[i] in a;
    assert forall i :: 0 <= i < |c| ==> t[i] == c[i] && c[i] in c;
    assert s[|a|] == '|' && t[|c|] == '|';
    assert |a| == |c|;
    assert a == s[..|a|] && c == t[..|c|];
    assert b == s[|a| + 1..] && d == t[|c| + 1..];
  }

  /** No key holds the separator of edge ids. */
  ghost predicate KeysAreClean(inp: Input) { forall p :: p in inp.Placed() ==> '|' !in p.Key() }

  lemma EdgeIdSplits(kind: EdgeKind, s: string, t: string, s': string, t': string)
    requires '|' !in s && '|' !in s' && EdgeId(kind, s, t) == EdgeId(kind, s', t')
    ensures s == s' && t == t'
  {
    var k := kind.Text();
    assert '|' !in k;
    assert EdgeId(kind, s, t) == k + "|" + (s + "|" + t) && EdgeId(kind, s', t') == k + "|" + (s' + "|" + t');
    SplitsOnce(k, s + "|" + t, k, s' + "|" + t');
    SplitsOnce(s, t, s', t');
  }

  lemma DropPrefix(prefix: string, a: string, b: string)
    requires prefix + a == prefix + b
    ensures a == b
  {
    assert a == (prefix + a)[|prefix|..] && b == (prefix + b)[|prefix|..];
  }

  lemma NetworkEdgesAre(inp: Input, e: Edge) returns (p: Placed, name: string)
    requires WellFed(inp) && E(e) in AllItems(inp) && e.kind.NetworkEdge?
    ensures p in inp.Placed() && name in Nets.Of(inp.nets, p.Key()) && IsDrawn(inp.nets, name)
    ensures e == MembershipEdge(inp.deps, p.Key(), name)
  {
    if E(e) in NodeSections(inp) {
      NodesShaped(inp, E(e));
    }
    OthersSound(inp);
    assert E(e) in OtherSections(inp) ==> Minor(E(e));
    RelationsShaped(inp, E(e));
    MembershipForm(inp, E(e));
    p, name :| p in inp.Placed() && name in Nets.Of(inp.nets, p.Key()) && IsDrawn(inp.nets, name)
      && E(e) == E(MembershipEdge(inp.deps, p.Key(), name));
  }

  lemma MembershipIdSplits(deps: seq<Dependency>, key: string, name: string, key': string, name': string)
    requires '|' !in key && '|' !in key'
    requires MembershipEdge(deps, key, name).id == MembershipEdge(deps, key', name').id
    ensures key == key' && name == name'
  {
    EdgeIdSplits(NetworkEdge, SVC + key, NET + name, SVC + key', NET + name');
    DropPrefix(SVC, key, key');
    DropPrefix(NET, name, name');
  }

  lemma SameIdSameKind(inp: Input, e: Edge, f: Edge)
    requires WellFed(inp) && E(e) in AllItems(inp) && E(f) in AllItems(inp) && e.id == f.id
    ensures e.kind == f.kind
  {
    EverythingShaped(inp, E(e));
    EverythingShaped(inp, E(f));
    KindsShow(e.id, e.kind, f.kind);
  }

  lemma MembershipIsEmitted(inp: Input, p: Placed, name: string)
    requires p in inp.Placed() && name in Nets.Of(inp.nets, p.Key()) && IsDrawn(inp.nets, name)
    ensures E(MembershipEdge(inp.deps, p.Key(), name)) in AllItems(inp)
  {
    MembershipForm(inp, E(MembershipEdge(inp.deps, p.Key(), name)));
  }

  /** Every service is joined to every drawn network it is on, by the edge that says what crosses there. */
  lemma MembershipIsDrawn(inp: Input, p: Placed, name: string)
    requires WellFed(inp) && KeysAreClean(inp)
    requires p in inp.Placed() && name in Nets.Of(inp.nets, p.Key()) && IsDrawn(inp.nets, name)
    ensures MembershipEdge(inp.deps, p.Key(), name) in Built(inp).edges
  {
    var e := MembershipEdge(inp.deps, p.Key(), name);
    MembershipIsEmitted(inp, p, name);
    ItemIsThere(inp, E(e));
    var f :| f in Built(inp).edges && f.id == e.id;
    PutAllKeeps(AllItems(inp));
    assert E(f) in AllItems(inp);
    SameIdSameKind(inp, e, f);
    var q, other := NetworkEdgesAre(inp, f);
    MembershipIdSplits(inp.deps, p.Key(), name, q.Key(), other);
  }

  // ---------------------------------------------------------------------------
  // What the stages before the graph hand it
  // ---------------------------------------------------------------------------

  /** The routes of `placed` are what origin resolution makes of the scanned routes, none of them resolved before. */
  ghost predicate OriginsOf(scanned: seq<Placed>, nets: Nets.Index, placed: seq<Placed>) {
    && Keys(placed) == Keys(scanned)
    && (forall p, r :: p in scanned && r in p.svc.cloudflare ==> r.origin.None?)
    && forall i :: 0 <= i < |placed| ==>
         placed[i].svc.cloudflare == Origins.Resolved(FleetIndex.IndexOf(scanned), nets, scanned[i]).svc.cloudflare
  }

  /** The input comes from one scan: the network index, the resolved origins and the resolved dependencies of this fleet. */
  ghost predicate FromScan(inp: Input, external: set<string>) {
    && WellNamed(inp.Placed())
    && inp.nets == Nets.IndexOf(Nets.Attachments(inp.Placed()), external)
    && inp.deps == DependencyLaws.Resolved(inp.Placed(), inp.nets)
    && exists scanned :: OriginsOf(scanned, inp.nets, inp.Placed())
  }

  lemma HopIsScanned(scanned: seq<Placed>, ats: seq<Nets.Attachment>, external: set<string>, p: Placed, route: CloudRoute)
    requires route.origin.None?
    ensures var r := Origins.RouteResolved(FleetIndex.IndexOf(scanned), Nets.IndexOf(ats, external), p.Key(), p.svc, route);
      ThroughHop(r) ==> r.origin.value.hopKey in Keys(scanned) && r.origin.value.hopKey != p.Key()
  {
    var r := Origins.RouteResolved(FleetIndex.IndexOf(scanned), Nets.IndexOf(ats, external), p.Key(), p.svc, route);
    Origins.HopIsTheOnlyForwarder(scanned, ats, external, p.Key(), p.svc, route.address);
    if ThroughHop(r) {
      var q :| q in scanned && q.Key() == r.origin.value.hopKey && Origins.Answers(q, route.address);
      PlacedHasKey(scanned, q);
    }
  }

  /** Origin resolution hands on only hops that are scanned services, when it starts from routes not resolved yet. */
  lemma HopsAreScanned(scanned: seq<Placed>, ats: seq<Nets.Attachment>, external: set<string>, p: Placed, i: nat)
    requires i < |p.svc.cloudflare| && p.svc.cloudflare[i].origin.None?
    ensures var routes := Origins.Resolved(FleetIndex.IndexOf(scanned), Nets.IndexOf(ats, external), p).svc.cloudflare;
      i < |routes| && (ThroughHop(routes[i]) ==> routes[i].origin.value.hopKey in Keys(scanned) && routes[i].origin.value.hopKey != p.Key())
  {
    HopIsScanned(scanned, ats, external, p, p.svc.cloudflare[i]);
    Origins.RoutesAre(FleetIndex.IndexOf(scanned), Nets.IndexOf(ats, external), p.Key(), p.svc, |p.svc.cloudflare|);
  }

  lemma ResolvedHopIsScanned(scanned: seq<Placed>, ats: seq<Nets.Attachment>, external: set<string>, q: Placed, r: CloudRoute)
    requires q in scanned && (forall p, x :: p in scanned && x in p.svc.cloudflare ==> x.origin.None?)
    requires r in Origins.Resolved(FleetIndex.IndexOf(scanned), Nets.IndexOf(ats, external), q).svc.cloudflare && ThroughHop(r)
    ensures r.origin.value.hopKey in Keys(scanned) && r.origin.value.hopKey != q.Key()
  {
    var ix, nets := FleetIndex.IndexOf(scanned), Nets.IndexOf(ats, external);
    var routes := Origins.Resolved(ix, nets, q).svc.cloudflare;
    Origins.RoutesAre(ix, nets, q.Key(), q.svc, |q.svc.cloudflare|);
    var j :| 0 <= j < |routes| && routes[j] == r;
    assert q.svc.cloudflare[j] in q.svc.cloudflare;
    HopsAreScanned(scanned, ats, external, q, j);
  }

  /** So every hop of the input is one of its own services. */
  lemma HopsAreKnown(inp: Input, external: set<string>, p: Placed, r: CloudRoute)
    requires FromScan(inp, external) && p in inp.Placed() && r in p.svc.cloudflare && ThroughHop(r)
    ensures inp.Has(r.origin.value.hopKey) && r.origin.value.hopKey != p.Key()
  {
    var scanned: seq<Placed> :| OriginsOf(scanned, inp.nets, inp.Placed());
    var i :| 0 <= i < |inp.Placed()| && inp.Placed()[i] == p;
    assert Keys(inp.Placed())[i] == Keys(scanned)[i];
    ResolvedHopIsScanned(scanned, Nets.Attachments(inp.Placed()), external, scanned[i], r);
  }

  lemma OfIsIndexed(ats: seq<Nets.Attachment>, external: set<string>, key: string, name: string)
    requires name in Nets.Of(Nets.IndexOf(ats, external), key)
    ensures name in Nets.IndexOf(ats, external).byName
  {
    Nets.IndexAgreesBothWays(ats, external, key, name);
  }

  lemma ScanIsWellFed(inp: Input, external: set<string>)
    requires FromScan(inp, external)
    ensures WellFed(inp)
  {
    var ats := Nets.Attachments(inp.Placed());
    forall name ensures name in inp.nets.byName <==> name in inp.nets.order {
      Nets.IndexAgreesBothWays(ats, external, "", name);
    }
    forall p, name | p in inp.Placed() && name in Nets.Of(inp.nets, p.Key()) ensures name in inp.nets.byName {
      OfIsIndexed(ats, external, p.Key(), name);
    }
    forall d | d in inp.deps ensures inp.Has(d.source) && inp.Has(d.target) {
      DependencyLaws.ResolvedIsTheRelation(inp.Placed(), inp.nets, d.source, d.target);
    }
    forall p, r | p in inp.Placed() && r in p.svc.cloudflare && ThroughHop(r) ensures inp.Has(r.origin.value.hopKey) {
      HopsAreKnown(inp, external, p, r);
    }
  }

  lemma DependencyIsRight(inp: Input, external: set<string>, d: Dependency)
    requires FromScan(inp, external) && d in inp.deps
    ensures d.source != d.target && (d.observed || d.declared) && d.via == Nets.Shared(inp.nets, d.source, d.target)
    ensures inp.Has(d.source) && inp.Has(d.target)
  {
    DependencyLaws.ResolvedIsTheRelation(inp.Placed(), inp.nets, d.source, d.target);
    assert DependencyLaws.Standing(DependencyLaws.Resolved(inp.Placed(), inp.nets), (d.source, d.target));
  }

  /** Every network in a resolved `via` has both services on it, so it has two members and is drawn. */
  lemma ViaIsDrawn(inp: Input, external: set<string>, d: Dependency, name: string)
    requires FromScan(inp, external) && d in inp.deps && name in d.via
    ensures name in Nets.Of(inp.nets, d.source) && name in Nets.Of(inp.nets, d.target)
    ensures IsDrawn(inp.nets, name) && |inp.nets.byName[name].members| >= 2
  {
    var ats := Nets.Attachments(inp.Placed());
    DependencyIsRight(inp, external, d);
    Nets.SharedIsBoth(ats, external, d.source, d.target, name);
    Nets.IndexAgreesBothWays(ats, external, d.source, name);
    Nets.IndexAgreesBothWays(ats, external, d.target, name);
    Nets.TwoElements(inp.nets.byName[name].members, d.source, d.target);
  }

  // ---------------------------------------------------------------------------
  // Arrowheads
  // ---------------------------------------------------------------------------

  ghost predicate Touches(d: Dependency, key: string, name: string) {
    name in d.via && (d.source == key || d.target == key)
  }

  ghost predicate FlowsOut(flow: Flow) { flow.ToNetwork? || flow.BothWays? }
  ghost predicate FlowsIn(flow: Flow) { flow.ToService? || flow.BothWays? }

  /** What one leg says, read back as dependencies. */
  lemma LegSays(deps: seq<Dependency>, key: string, name: string)
    requires forall d :: d in deps ==> d.source != d.target && (d.observed || d.declared)
    ensures var (flow, source) := Leg(deps, key, name);
      && (FlowsOut(flow) <==> exists d :: d in deps && name in d.via && d.source == key)
      && (FlowsIn(flow) <==> exists d :: d in deps && name in d.via && d.target == key)
      && (flow.NoFlow? <==> source.NoSource?)
      && (source.FromDeclared? <==> !flow.NoFlow? && forall d :: d in deps && Touches(d, key, name) ==> !d.observed)
      && (source.FromObserved? <==> !flow.NoFlow? && forall d :: d in deps && Touches(d, key, name) ==> !d.declared)
  {
    assert forall d :: d in deps && d.target == key ==> Into(d, key);
  }

  /** Every network a resolved dependency crosses is drawn, with both membership edges, and the arrows on them run from
      the dependent and to its target. */
  lemma DependencyHasItsArrows(inp: Input, external: set<string>, d: Dependency, name: string)
    requires FromScan(inp, external) && KeysAreClean(inp) && d in inp.deps && name in d.via
    ensures HasNode(Built(inp), NET + name)
    ensures var from', to := MembershipEdge(inp.deps, d.source, name), MembershipEdge(inp.deps, d.target, name);
      from' in Built(inp).edges && to in Built(inp).edges && FlowsOut(from'.flow) && FlowsIn(to.flow)
  {
    ScanIsWellFed(inp, external);
    ViaIsDrawn(inp, external, d, name);
    DependencyIsRight(inp, external, d);
    forall x | x in inp.deps ensures x.source != x.target && (x.observed || x.declared) { DependencyIsRight(inp, external, x); }
    var p := KeyIsPlaced(inp.Placed(), d.source);
    var q := KeyIsPlaced(inp.Placed(), d.target);
    MembershipIsDrawn(inp, p, name);
    MembershipIsDrawn(inp, q, name);
    LegSays(inp.deps, d.source, name);
    LegSays(inp.deps, d.target, name);
    NetworkIsKnown(inp, name);
    KnownIsThere(inp, NET + name);
  }

  /** And no arrow is there without one: a membership edge carries a flow exactly when some resolved dependency of that
      service crosses that network, in the direction it says, and is dashed exactly when none of those was observed. */
  lemma ArrowsHaveDependencies(inp: Input, external: set<string>, e: Edge) returns (p: Placed, name: string)
    requires FromScan(inp, external) && e in Built(inp).edges && e.kind.NetworkEdge?
    ensures p in inp.Placed() && name in Nets.Of(inp.nets, p.Key()) && e.source == SVC + p.Key() && e.target == NET + name
    ensures FlowsOut(e.flow) <==> exists d :: d in inp.deps && name in d.via && d.source == p.Key()
    ensures FlowsIn(e.flow) <==> exists d :: d in inp.deps && name in d.via && d.target == p.Key()
    ensures e.flow.NoFlow? <==> e.flowSource.NoSource?
    ensures e.flowSource.FromDeclared? <==> !e.flow.NoFlow? && forall d :: d in inp.deps && Touches(d, p.Key(), name) ==> !d.observed
  {
    ScanIsWellFed(inp, external);
    PutAllKeeps(AllItems(inp));
    p, name := NetworkEdgesAre(inp, e);
    forall x | x in inp.deps ensures x.source != x.target && (x.observed || x.declared) { DependencyIsRight(inp, external, x); }
    LegSays(inp.deps, p.Key(), name);
  }

  // ---------------------------------------------------------------------------
  // Routes and dependencies keep an edge each
  // ---------------------------------------------------------------------------

  /** No node id holds the separator of edge ids. */
  ghost predicate NamesAreClean(inp: Input) { forall n :: N(n) in AllItems(inp) ==> '|' !in n.id }

  lemma ReachedIsClean(inp: Input, id: string)
    requires NamesAreClean(inp) && Reached(OtherSections(inp), NodeIds(NodeSections(inp)), id)
    ensures '|' !in id
  {
    if id in NodeIds(NodeSections(inp)) {
      var it :| it in NodeSections(inp) && it.N? && it.node.id == id;
      assert N(it.node) in AllItems(inp);
    } else {
      var n :| N(n) in OtherSections(inp) && n.id == id;
      assert N(n) in AllItems(inp);
    }
  }

  lemma PathIdSplits(s: string, t: string, c: string, s': string, t': string, c': string)
    requires '|' !in s && '|' !in t && '|' !in s' && '|' !in t' && PathEdge(s, t, c).id == PathEdge(s', t', c').id
    ensures s == s' && t == t' && c == c'
  {
    var k := IngressEdge.Text();
    assert PathEdge(s, t, c).id == k + "|" + (s + "|" + (t + "|" + c));
    assert PathEdge(s', t', c').id == k + "|" + (s' + "|" + (t' + "|" + c'));
    SplitsOnce(k, s + "|" + (t + "|" + c), k, s' + "|" + (t' + "|" + c'));
    SplitsOnce(s, t + "|" + c, s', t' + "|" + c');
    SplitsOnce(t, c, t', c');
  }

  lemma HostEdgeIsNoPath(host: string, s: string, t: string, c: string)
    requires '|' !in s && EdgeId(IngressEdge, OUTSIDE, host) == PathEdge(s, t, c).id
    ensures s == OUTSIDE
  {
    var k := IngressEdge.Text();
    assert EdgeId(IngressEdge, OUTSIDE, host) == k + "|" + (OUTSIDE + "|" + host);
    assert PathEdge(s, t, c).id == k + "|" + (s + "|" + (t + "|" + c));
    SplitsOnce(k, OUTSIDE + "|" + host, k, s + "|" + (t + "|" + c));
    SplitsOnce(OUTSIDE, host, s, t + "|" + c);
  }

  lemma SameIngressId(e: Edge, f: Edge)
    requires IngressForm(e) && IngressForm(f) && e.id == f.id
    requires '|' !in e.source && '|' !in e.target && '|' !in f.source && '|' !in f.target
    ensures e == f
  {
    if e.source == OUTSIDE && f.source == OUTSIDE {
      EdgeIdSplits(IngressEdge, OUTSIDE, e.target, OUTSIDE, f.target);
    } else if e.source == OUTSIDE {
      HostEdgeIsNoPath(e.target, f.source, f.target, f.caption.text);
    } else if f.source == OUTSIDE {
      HostEdgeIsNoPath(f.target, e.source, e.target, e.caption.text);
    } else {
      PathIdSplits(e.source, e.target, e.caption.text, f.source, f.target, f.caption.text);
    }
  }

  lemma IngressIsFormed(inp: Input, e: Edge)
    requires WellFed(inp) && NamesAreClean(inp) && E(e) in AllItems(inp) && e.kind.IngressEdge?
    ensures IngressForm(e) && '|' !in e.source && '|' !in e.target
  {
    if E(e) in NodeSections(inp) {
      NodesShaped(inp, E(e));
    } else if E(e) in RelationSections(inp) {
      RelationsShaped(inp, E(e));
    }
    OthersSound(inp);
    assert Minor(E(e)) && Ended(OtherSections(inp), NodeIds(NodeSections(inp)), E(e));
    ReachedIsClean(inp, e.source);
    ReachedIsClean(inp, e.target);
  }

  /** Whatever an ingress section emits is in the graph exactly as emitted. Which routes emit one edge between them is
      module RoutePaths's business. */
  lemma EveryRouteIsDrawn(inp: Input, e: Edge)
    requires WellFed(inp) && NamesAreClean(inp) && E(e) in AllItems(inp) && e.kind.IngressEdge?
    ensures e in Built(inp).edges
  {
    ItemIsThere(inp, E(e));
    var f :| f in Built(inp).edges && f.id == e.id;
    PutAllKeeps(AllItems(inp));
    assert E(f) in AllItems(inp);
    SameIdSameKind(inp, e, f);
    IngressIsFormed(inp, e);
    IngressIsFormed(inp, f);
    SameIngressId(e, f);
  }

  lemma DependencyEdgesAre(inp: Input, e: Edge) returns (d: Dependency)
    requires WellFed(inp) && E(e) in AllItems(inp) && e.kind.DependsOnEdge?
    ensures d in inp.deps && e == DependencyEdge(d)
  {
    if E(e) in NodeSections(inp) {
      NodesShaped(inp, E(e));
    }
    OthersSound(inp);
    assert E(e) in OtherSections(inp) ==> Minor(E(e));
    RelationsShaped(inp, E(e));
    DependencyForm(inp, E(e));
    d :| d in inp.deps && E(e) == E(DependencyEdge(d));
  }

  lemma SamePair(deps: seq<Dependency>, a: Dependency, b: Dependency)
    requires DependencyLaws.PairsDiffer(deps) && a in deps && b in deps && a.Pair() == b.Pair()
    ensures a == b
  {
  }

  /** Every resolved dependency has its own edge, which carries its networks and is dashed exactly when only a
      declaration speaks for it. */
  lemma EveryDependencyIsDrawn(inp: Input, external: set<string>, d: Dependency)
    requires FromScan(inp, external) && KeysAreClean(inp) && d in inp.deps
    ensures DependencyEdge(d) in Built(inp).edges
    ensures DependencyEdge(d).declaredBy.Some? <==>
      DependencyLaws.DeclaredBy(inp.Placed(), d.source, d.target) && !DependencyLaws.Composed(inp.Placed(), d.source, d.target)
  {
    ScanIsWellFed(inp, external);
    var e := DependencyEdge(d);
    DependencyForm(inp, E(e));
    assert E(e) in AllItems(inp);
    ItemIsThere(inp, E(e));
    var f :| f in Built(inp).edges && f.id == e.id;
    PutAllKeeps(AllItems(inp));
    assert E(f) in AllItems(inp);
    SameIdSameKind(inp, e, f);
    var other := DependencyEdgesAre(inp, f);
    KeyIsClean(inp, d.source);
    KeyIsClean(inp, other.source);
    DependencyIdSplits(d, other);
    DependencyLaws.ResolvedIsTheRelation(inp.Placed(), inp.nets, d.source, d.target);
    SamePair(inp.deps, d, other);
  }

  lemma DependencyIdSplits(a: Dependency, b: Dependency)
    requires '|' !in a.source && '|' !in b.source && DependencyEdge(a).id == DependencyEdge(b).id
    ensures a.Pair() == b.Pair()
  {
    assert '|' !in SVC;
    EdgeIdSplits(DependsOnEdge, SVC + a.source, SVC + a.target, SVC + b.source, SVC + b.target);
    DropPrefix(SVC, a.source, b.source);
    DropPrefix(SVC, a.target, b.target);
  }

  lemma KeyIsClean(inp: Input, key: string)
    requires KeysAreClean(inp) && inp.Has(key)
    ensures '|' !in key
  {
    var p := KeyIsPlaced(inp.Placed(), key);
  }

  // ---------------------------------------------------------------------------
  // Drawn networks
  // ---------------------------------------------------------------------------

  /** How many nodes of the graph are networks: what `DrawnNetworkNodes` counts. */
  function NetworkNodes(nodes: seq<Node>): nat {
    if nodes == [] then 0 else NetworkNodes(nodes[..|nodes| - 1]) + (if nodes[|nodes| - 1].kind.NetworkNode? then 1 else 0)
  }

  method DrawnNetworkNodes(nodes: seq<Node>) returns (n: nat)
    ensures n == NetworkNodes(nodes)
  {
    n := 0;
    var i := 0;
    while i < |nodes|
      invariant 0 <= i <= |nodes| && n == NetworkNodes(nodes[..i])
    {
      assert nodes[..i + 1][..i] == nodes[..i];
      if nodes[i].kind.NetworkNode? {
        n := n + 1;
      }
      i := i + 1;
    }
    assert nodes[..i] == nodes;
  }

  function DrawnCount(nets: Nets.Index, names: seq<string>): nat {
    if names == [] then 0 else DrawnCount(nets, names[..|names| - 1]) + (if IsDrawn(nets, names[|names| - 1]) then 1 else 0)
  }

  lemma PutCounts(g: Graph, it: Item)
    ensures NetworkNodes(Put(g, it).nodes) ==
      NetworkNodes(g.nodes) + (if Id(it) !in g.seen && it.N? && it.node.kind.NetworkNode? then 1 else 0)
  {
    if it.N? {
      assert (g.nodes + [it.node])[..|g.nodes|] == g.nodes;
    }
  }

  lemma {:induction false} OthersAddNoNetwork(g: Graph, items: seq<Item>)
    requires forall it :: it in items && it.N? ==> !it.node.kind.NetworkNode?
    ensures NetworkNodes(PutAll(g, items).nodes) == NetworkNodes(g.nodes)
  {
    if items != [] {
      SplitLast(items);
      OthersAddNoNetwork(g, items[..|items| - 1]);
      PutCounts(PutAll(g, items[..|items| - 1]), items[|items| - 1]);
    }
  }

  ghost predicate NoneSeen(g: Graph, names: seq<string>) { forall n :: n in names ==> NET + n !in g.seen }

  /** The network section adds one node per drawn network, and marks only their ids. */
  lemma {:induction false} NetworkSectionCounts(nets: Nets.Index, g: Graph, names: seq<string>)
    requires Distinct(names) && NoneSeen(g, names)
    ensures var g' := PutAll(g, FlatMap(names, NetworkItems(nets)));
      && NetworkNodes(g'.nodes) == NetworkNodes(g.nodes) + DrawnCount(nets, names)
      && forall id :: id in g'.seen ==> id in g.seen || exists n :: n in names && id == NET + n
  {
    if names != [] {
      SplitLast(names);
      var last, before := names[|names| - 1], names[..|names| - 1];
      NetworkSectionCounts(nets, g, before);
      var g' := PutAll(g, FlatMap(before, NetworkItems(nets)));
      forall n | n in before ensures NET + n != NET + last { if NET + n == NET + last { DropPrefix(NET, n, last); } }
      assert NET + last !in g'.seen;
      PutAllAppend(g, FlatMap(before, NetworkItems(nets)), NetworkItems(nets)(last));
      if IsDrawn(nets, last) {
        PutOne(g', N(NetworkOf(nets, last)));
        PutCounts(g', N(NetworkOf(nets, last)));
      }
    }
  }

  lemma ServicesLeaveNetworks(inp: Input)
    ensures var g := PutAll(EMPTY, FlatMap(inp.Placed(), ServiceItems(inp)));
      NoneSeen(g, inp.nets.order) && NetworkNodes(g.nodes) == 0
  {
    var items := FlatMap(inp.Placed(), ServiceItems(inp));
    forall it | it in items ensures it.N? && !it.node.kind.NetworkNode? && |it.node.id| > 0 && it.node.id[0] == 's' {
      FlatMapHas(inp.Placed(), ServiceItems(inp), it);
      var p :| p in inp.Placed() && it in ServiceItems(inp)(p);
      assert (SVC + p.Key())[0] == 's';
    }
    PutAllKeeps(items);
    OthersAddNoNetwork(EMPTY, items);
    var g := PutAll(EMPTY, items);
    forall n | n in inp.nets.order ensures NET + n !in g.seen {
      assert (NET + n)[0] == 'n';
      forall m | m in g.nodes ensures m.id != NET + n { assert N(m) in items; }
    }
  }

  lemma LaterSectionsAddNoNetwork(inp: Input, g: Graph)
    requires WellFed(inp)
    ensures NetworkNodes(PutAll(g, FlatMap(inp.stacks, StackVolumeItems()) + RelationSections(inp) + OtherSections(inp)).nodes)
         == NetworkNodes(g.nodes)
  {
    var items := FlatMap(inp.stacks, StackVolumeItems()) + RelationSections(inp) + OtherSections(inp);
    OthersSound(inp);
    forall it | it in items && it.N? ensures !it.node.kind.NetworkNode? {
      if it in FlatMap(inp.stacks, StackVolumeItems()) {
        FlatMapHas(inp.stacks, StackVolumeItems(), it);
        var stack :| stack in inp.stacks && it in StackVolumeItems()(stack);
        FlatMapHas(stack.volumes, VolumeItems(), it);
      } else if it in RelationSections(inp) {
        RelationsShaped(inp, it);
      } else {
        assert Minor(it);
      }
    }
    OthersAddNoNetwork(g, items);
  }

  lemma SectionsAre(inp: Input, a: seq<Item>, b: seq<Item>, c: seq<Item>)
    requires NodeSections(inp) == a + b + c
    ensures AllItems(inp) == a + b + (c + RelationSections(inp) + OtherSections(inp))
  {
  }

  /** The graph draws one node per network that is not solo-local, and no other network node. */
  lemma NetworksDrawnOnce(inp: Input)
    requires WellFed(inp) && Distinct(inp.nets.order)
    ensures NetworkNodes(Built(inp).nodes) == DrawnCount(inp.nets, inp.nets.order)
  {
    var a, b := FlatMap(inp.Placed(), ServiceItems(inp)), FlatMap(inp.nets.order, NetworkItems(inp.nets));
    var rest := FlatMap(inp.stacks, StackVolumeItems()) + RelationSections(inp) + OtherSections(inp);
    SectionsAre(inp, a, b, FlatMap(inp.stacks, StackVolumeItems()));
    PutAllAppend(EMPTY, a + b, rest);
    PutAllAppend(EMPTY, a, b);
    ServicesLeaveNetworks(inp);
    NetworkSectionCounts(inp.nets, PutAll(EMPTY, a), inp.nets.order);
    LaterSectionsAddNoNetwork(inp, PutAll(EMPTY, a + b));
  }
}
