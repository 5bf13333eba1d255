/** The identity diagram, edge by edge (labview/internal/fleet/graph.go): which way each auth edge points, between what,
    and what it says, told by the gate map, the matches and the providers alone. */
module GraphAuth {
  import opened Options
  import opened Lists
  import opened Vocabulary
  import opened Fleet
  import opened Depends
  import opened Graphs
  import opened GraphLaws
  import opened GraphTheorems
  import opened Ordering

  /** The whole of a plain auth edge between two ids. */
  ghost predicate Links(e: Edge, source: string, target: string, caption: Caption) {
    && e.id == "auth|" + source + "|" + target && e.source == source && e.target == target && e.kind == AuthEdge
    && e.caption == caption && e.via == [] && e.flow == NoFlow && e.flowSource == NoSource && e.declaredBy == None
  }

  /** The gate map sends `key` to `gate`, another scanned service: the edge runs from the gate to what it guards and
      carries the method of what it guards. */
  ghost predicate GateSays(inp: Input, key: string, gate: string, e: Edge) {
    && (key, gate) in inp.gates && gate != "" && gate != key && inp.Has(gate)
    && exists p :: p in inp.Placed() && p.Key() == key && Links(e, "svc:" + gate, "svc:" + key, OfMethod(p.svc.auth))
  }

  /** The strength of match `i`; one past the strengths reads as matched by name. */
  function StrengthAt(m: AuthentikMatch, i: nat): Strength { if i < |m.strength| then m.strength[i] else NameMatch }

  /** Application `i` matched onto the service: the edge runs from the application and carries the strength. */
  ghost predicate MatchSays(inp: Input, p: Placed, i: nat, e: Edge) {
    && p in inp.Placed() && p.svc.authentik.Some? && i < |p.svc.authentik.value.applications|
    && var m := p.svc.authentik.value;
    Links(e, "app:" + m.applications[i].slug, "svc:" + p.Key(), OfStrength(StrengthAt(m, i)))
  }

  /** The application is in the diagram: tied to some service, or to none. */
  ghost predicate Shown(inp: Input, app: Application) {
    || app in inp.unmatchedApps
    || exists p :: p in inp.Placed() && p.svc.authentik.Some? && app in p.svc.authentik.value.applications
  }

  ghost predicate ProviderSays(inp: Input, app: Application, p: Provider, e: Edge) {
    Shown(inp, app) && p in app.providers && Links(e, "provider:" + p.name, "app:" + app.slug, OfProvider(p.kind))
  }

  ghost predicate OutpostSays(inp: Input, app: Application, p: Provider, outpost: string, e: Edge) {
    Shown(inp, app) && p in app.providers && outpost in p.outposts && Links(e, "outpost:" + outpost, "provider:" + p.name, Plain(""))
  }

  ghost predicate SomeGate(inp: Input, e: Edge) { exists key, gate :: GateSays(inp, key, gate, e) }
  ghost predicate SomeMatch(inp: Input, e: Edge) { exists p, i: nat :: MatchSays(inp, p, i, e) }
  ghost predicate SomeProvider(inp: Input, e: Edge) { exists app, p :: ProviderSays(inp, app, p, e) }
  ghost predicate SomeOutpost(inp: Input, e: Edge) { exists app, p, o :: OutpostSays(inp, app, p, o, e) }

  // ---------------------------------------------------------------------------
  // What one section emits
  // ---------------------------------------------------------------------------

  lemma AuthEdgeIs(e: Edge, source: string, target: string, caption: Caption)
    ensures e == PlainEdge(AuthEdge, source, target, caption) <==> Links(e, source, target, caption)
  {
    assert AuthEdge.Text() + "|" == "auth|";
  }

  lemma {:induction false} MethodAt(placed: seq<Placed>, p: Placed)
    requires p in placed && forall q :: q in placed && q.Key() == p.Key() ==> q == p
    ensures AuthOf(placed, p.Key()) == p.svc.auth
  {
    SplitLast(placed);
    if placed[|placed| - 1].Key() != p.Key() {
      MethodAt(placed[..|placed| - 1], p);
    }
  }

  lemma KeysTellServices(placed: seq<Placed>, p: Placed, q: Placed)
    requires WellNamed(placed) && p in placed && q in placed && p.Key() == q.Key()
    ensures p == q
  {
    KeysAreDistinct(placed);
    var i :| 0 <= i < |placed| && placed[i] == p;
    var j :| 0 <= j < |placed| && placed[j] == q;
    assert Keys(placed)[i] == Keys(placed)[j];
  }

  lemma GateEmits(inp: Input, key: string, gate: string, e: Edge)
    requires WellNamed(inp.Placed()) && (key, gate) in inp.gates
    ensures E(e) in GateItems(inp)((key, gate)) <==> GateSays(inp, key, gate, e)
  {
    if inp.Has(key) {
      var p := KeyIsPlaced(inp.Placed(), key);
      forall q | q in inp.Placed() && q.Key() == p.Key() ensures q == p { KeysTellServices(inp.Placed(), q, p); }
      MethodAt(inp.Placed(), p);
      AuthEdgeIs(e, SVC + gate, SVC + key, OfMethod(p.svc.auth));
    } else {
      forall p | p in inp.Placed() ensures p.Key() != key { PlacedHasKey(inp.Placed(), p); }
    }
  }

  lemma OutpostEmits(provider: string, outpost: string, e: Edge)
    ensures E(e) in OutpostItems(provider)(outpost) <==> Links(e, "outpost:" + outpost, "provider:" + provider, Plain(""))
  {
    AuthEdgeIs(e, OUTPOST + outpost, PROVIDER + provider, Plain(""));
  }

  ghost predicate SomeOutpostOf(p: Provider, e: Edge) {
    exists o :: o in p.outposts && Links(e, "outpost:" + o, "provider:" + p.name, Plain(""))
  }

  lemma OutpostsEmit(p: Provider, e: Edge)
    ensures E(e) in FlatMap(Sort(StrLess, p.outposts), OutpostItems(p.name)) <==> SomeOutpostOf(p, e)
  {
    var sorted := Sort(StrLess, p.outposts);
    SortedOutposts(p.outposts);
    FlatMapHas(sorted, OutpostItems(p.name), E(e));
    if o :| o in sorted && E(e) in OutpostItems(p.name)(o) {
      OutpostEmits(p.name, o, e);
    }
    if o :| o in p.outposts && Links(e, "outpost:" + o, "provider:" + p.name, Plain("")) {
      OutpostEmits(p.name, o, e);
      assert o in sorted;
    }
  }

  lemma ProviderEmits(slug: string, p: Provider, e: Edge)
    ensures E(e) in ProviderItems(slug)(p) <==> Links(e, "provider:" + p.name, "app:" + slug, OfProvider(p.kind)) || SomeOutpostOf(p, e)
  {
    OutpostsEmit(p, e);
    AuthEdgeIs(e, PROVIDER + p.name, APP + slug, OfProvider(p.kind));
    ProviderItemsAre(slug, p);
  }

  lemma ProviderItemsAre(slug: string, p: Provider)
    ensures forall it :: it in ProviderItems(slug)(p) <==>
      || it == N(Outsider(PROVIDER + p.name, p.name)) || it == E(PlainEdge(AuthEdge, PROVIDER + p.name, APP + slug, OfProvider(p.kind)))
      || it in FlatMap(Sort(StrLess, p.outposts), OutpostItems(p.name))
  {
  }

  lemma {:induction false} InsertKeeps(x: string, s: seq<string>)
    ensures forall y :: y in Insert(StrLess, x, s) <==> y == x || y in s
  {
    if s != [] && StrLess(s[0], x) {
      InsertKeeps(x, s[1..]);
      SplitFirst(s);
    }
  }

  lemma {:induction false} SortedOutposts(s: seq<string>)
    ensures forall y :: y in Sort(StrLess, s) <==> y in s
  {
    if s != [] {
      SortedOutposts(s[1..]);
      InsertKeeps(s[0], Sort(StrLess, s[1..]));
      SplitFirst(s);
    }
  }

  /** What an application brings with it: its providers' edges to it and their outposts' edges to them. */
  ghost predicate Brings(app: Application, e: Edge) {
    exists p :: p in app.providers && BringsBy(app, p, e)
  }

  ghost predicate BringsBy(app: Application, p: Provider, e: Edge) {
    Links(e, "provider:" + p.name, "app:" + app.slug, OfProvider(p.kind)) || SomeOutpostOf(p, e)
  }

  lemma ApplicationEmits(app: Application, e: Edge)
    ensures E(e) in ApplicationItems()(app) <==> Brings(app, e)
  {
    FlatMapHas(app.providers, ProviderItems(app.slug), E(e));
    forall p | p in app.providers ensures E(e) in ProviderItems(app.slug)(p) <==> BringsBy(app, p, e) {
      ProviderEmits(app.slug, p, e);
    }
  }

  lemma MatchEmits(key: string, m: (Application, Strength), e: Edge)
    ensures E(e) in MatchItems(key)(m) <==> Brings(m.0, e) || Links(e, "app:" + m.0.slug, "svc:" + key, OfStrength(m.1))
  {
    ApplicationEmits(m.0, e);
    AuthEdgeIs(e, APP + m.0.slug, SVC + key, OfStrength(m.1));
  }

  /** What one service's matches bring. */
  ghost predicate ServiceBrings(inp: Input, p: Placed, e: Edge) {
    && p.svc.authentik.Some?
    && exists i: nat :: i < |p.svc.authentik.value.applications|
         && (MatchSays(inp, p, i, e) || Brings(p.svc.authentik.value.applications[i], e))
  }

  lemma ServiceEmits(inp: Input, p: Placed, e: Edge)
    requires p in inp.Placed()
    ensures E(e) in ServiceMatches()(p) <==> ServiceBrings(inp, p, e)
  {
    if p.svc.authentik.Some? {
      var m := p.svc.authentik.value;
      var ms := WithStrength(m);
      FlatMapHas(ms, MatchItems(p.Key()), E(e));
      forall i: nat | i < |ms|
        ensures E(e) in MatchItems(p.Key())(ms[i]) <==> MatchSays(inp, p, i, e) || Brings(m.applications[i], e)
      {
        MatchEmits(p.Key(), ms[i], e);
      }
      if x :| x in ms && E(e) in MatchItems(p.Key())(x) {
        var i: nat :| i < |ms| && ms[i] == x;
        assert MatchSays(inp, p, i, e) || Brings(m.applications[i], e);
      }
      if i: nat :| i < |m.applications| && (MatchSays(inp, p, i, e) || Brings(m.applications[i], e)) {
        assert ms[i] in ms;
      }
    }
  }

  // ---------------------------------------------------------------------------
  // What the whole graph emits
  // ---------------------------------------------------------------------------

  ghost predicate NoAuth(items: seq<Item>) { forall it :: it in items && it.E? ==> !it.edge.kind.AuthEdge? }

  lemma {:induction false} NoAuthIn<A(!new)>(xs: seq<A>, f: A -> seq<Item>)
    requires forall x :: x in xs ==> NoAuth(f(x))
    ensures NoAuth(FlatMap(xs, f))
  {
    if xs != [] {
      SplitLast(xs);
      NoAuthIn(xs[..|xs| - 1], f);
    }
  }

  lemma MountsHaveNoAuth(inp: Input)
    ensures NoAuth(FlatMap(inp.stacks, StackMounts()))
  {
    forall stack | stack in inp.stacks ensures NoAuth(StackMounts()(stack)) {
      forall p | p in InStack(stack) ensures NoAuth(ServiceMounts(stack)(p)) {
        NoAuthIn(p.svc.mounts, MountItems(stack, p.Key()));
      }
      NoAuthIn(InStack(stack), ServiceMounts(stack));
    }
    NoAuthIn(inp.stacks, StackMounts());
  }

  lemma PathsHaveNoAuth(inp: Input)
    ensures NoAuth(FlatMap(inp.Placed(), ServiceIngresses()))
  {
    forall p | p in inp.Placed() ensures NoAuth(ServiceIngresses()(p)) {
      NoAuthIn(p.svc.cloudflare, CloudItems(p.Key()));
      forall r | r in p.svc.traefik ensures NoAuth(RouterItems(p.Key())(r)) {
        NoAuthIn(r.hosts, RouterHostItems(p.Key(), r.router));
      }
      NoAuthIn(p.svc.traefik, RouterItems(p.Key()));
    }
    NoAuthIn(inp.Placed(), ServiceIngresses());
  }

  lemma AuthComesFromAuth(inp: Input, e: Edge)
    requires WellFed(inp) && e.kind.AuthEdge?
    ensures E(e) in AllItems(inp) <==> E(e) in AuthSections(inp)
  {
    if E(e) in NodeSections(inp) {
      NodesShaped(inp, E(e));
    } else if E(e) in RelationSections(inp) {
      RelationsShaped(inp, E(e));
    }
    MountsHaveNoAuth(inp);
    PathsHaveNoAuth(inp);
  }

  lemma GatesEmit(inp: Input, e: Edge)
    requires WellNamed(inp.Placed())
    ensures E(e) in FlatMap(inp.gates, GateItems(inp)) <==> SomeGate(inp, e)
  {
    FlatMapHas(inp.gates, GateItems(inp), E(e));
    if g :| g in inp.gates && E(e) in GateItems(inp)(g) {
      GateEmits(inp, g.0, g.1, e);
    }
    if key, gate :| GateSays(inp, key, gate, e) {
      GateEmits(inp, key, gate, e);
    }
  }

  lemma MatchesEmit(inp: Input, e: Edge)
    ensures E(e) in FlatMap(inp.Placed(), ServiceMatches()) <==> exists p :: p in inp.Placed() && ServiceBrings(inp, p, e)
  {
    FlatMapHas(inp.Placed(), ServiceMatches(), E(e));
    forall p | p in inp.Placed() ensures E(e) in ServiceMatches()(p) <==> ServiceBrings(inp, p, e) { ServiceEmits(inp, p, e); }
  }

  lemma UnmatchedEmit(inp: Input, e: Edge)
    ensures E(e) in FlatMap(inp.unmatchedApps, ApplicationItems()) <==> exists app :: app in inp.unmatchedApps && Brings(app, e)
    ensures E(e) !in FlatMap(inp.unmatchedRouters, UnmatchedRouterItems())
  {
    FlatMapHas(inp.unmatchedApps, ApplicationItems(), E(e));
    forall app | app in inp.unmatchedApps ensures E(e) in ApplicationItems()(app) <==> Brings(app, e) { ApplicationEmits(app, e); }
    FlatMapHas(inp.unmatchedRouters, UnmatchedRouterItems(), E(e));
  }

  /** Something in the diagram brings the edge. */
  ghost predicate Brought(inp: Input, e: Edge) { exists app :: Shown(inp, app) && Brings(app, e) }

  lemma BroughtBySomething(inp: Input, e: Edge)
    ensures Brought(inp, e) <==> SomeProvider(inp, e) || SomeOutpost(inp, e)
  {
    if app :| Shown(inp, app) && Brings(app, e) {
      var p :| p in app.providers && BringsBy(app, p, e);
      if o :| o in p.outposts && Links(e, "outpost:" + o, "provider:" + p.name, Plain("")) {
        assert OutpostSays(inp, app, p, o, e);
      } else {
        assert ProviderSays(inp, app, p, e);
      }
    }
    if app, p :| ProviderSays(inp, app, p, e) {
      assert BringsBy(app, p, e) && Brings(app, e);
    }
    if app, p, o :| OutpostSays(inp, app, p, o, e) {
      assert SomeOutpostOf(p, e) && BringsBy(app, p, e) && Brings(app, e);
    }
  }

  lemma ServicesBring(inp: Input, e: Edge)
    ensures (exists p :: p in inp.Placed() && ServiceBrings(inp, p, e)) || (exists app :: app in inp.unmatchedApps && Brings(app, e))
      <==> SomeMatch(inp, e) || Brought(inp, e)
  {
    if p :| p in inp.Placed() && ServiceBrings(inp, p, e) {
      var i: nat :| i < |p.svc.authentik.value.applications|
        && (MatchSays(inp, p, i, e) || Brings(p.svc.authentik.value.applications[i], e));
      assert Shown(inp, p.svc.authentik.value.applications[i]);
    }
    if p, i: nat :| MatchSays(inp, p, i, e) {
      assert ServiceBrings(inp, p, e);
    }
    if app :| Shown(inp, app) && Brings(app, e) {
      ShownIsEmitted(inp, app, e);
    }
  }

  lemma ShownIsEmitted(inp: Input, app: Application, e: Edge)
    requires Shown(inp, app) && Brings(app, e)
    ensures (exists p :: p in inp.Placed() && ServiceBrings(inp, p, e)) || (exists x :: x in inp.unmatchedApps && Brings(x, e))
  {
    if app !in inp.unmatchedApps {
      var p :| p in inp.Placed() && p.svc.authentik.Some? && app in p.svc.authentik.value.applications;
      var i: nat :| i < |p.svc.authentik.value.applications| && p.svc.authentik.value.applications[i] == app;
      assert ServiceBrings(inp, p, e);
    }
  }

  /** The auth edges emitted are those of the four relations. */
  lemma AuthEdgesEmitted(inp: Input, e: Edge)
    requires WellFed(inp) && WellNamed(inp.Placed()) && e.kind.AuthEdge?
    ensures E(e) in AllItems(inp) <==> SomeGate(inp, e) || SomeMatch(inp, e) || SomeProvider(inp, e) || SomeOutpost(inp, e)
  {
    AuthComesFromAuth(inp, e);
    GatesEmit(inp, e);
    MatchesEmit(inp, e);
    UnmatchedEmit(inp, e);
    ServicesBring(inp, e);
    BroughtBySomething(inp, e);
  }

  // ---------------------------------------------------------------------------
  // What the graph keeps
  // ---------------------------------------------------------------------------

  lemma AuthIsClean(inp: Input, e: Edge)
    requires WellFed(inp) && NamesAreClean(inp) && E(e) in AllItems(inp) && e.kind.AuthEdge?
    ensures '|' !in e.source && '|' !in e.target
  {
    AuthComesFromAuth(inp, e);
    OthersSound(inp);
    assert Ended(OtherSections(inp), NodeIds(NodeSections(inp)), E(e));
    ReachedIsClean(inp, e.source);
    ReachedIsClean(inp, e.target);
  }

  lemma AuthIdSplits(e: Edge, f: Edge, s: string, t: string, c: Caption, s': string, t': string, c': Caption)
    requires Links(e, s, t, c) && Links(f, s', t', c') && e.id == f.id && '|' !in s && '|' !in s'
    ensures s == s' && t == t'
  {
    assert EdgeId(AuthEdge, s, t) == e.id && EdgeId(AuthEdge, s', t') == f.id;
    EdgeIdSplits(AuthEdge, s, t, s', t');
  }

  ghost predicate AnyAuth(inp: Input, e: Edge) { SomeGate(inp, e) || SomeMatch(inp, e) || SomeProvider(inp, e) || SomeOutpost(inp, e) }

  lemma AnyAuthLinks(inp: Input, e: Edge)
    requires AnyAuth(inp, e)
    ensures Links(e, e.source, e.target, e.caption)
  {
  }

  /** Every auth edge of the graph is of one of the relations, and between the ends of every pair related there is one. */
  lemma AuthEdgesKept(inp: Input, e: Edge)
    requires WellFed(inp) && WellNamed(inp.Placed()) && NamesAreClean(inp) && e.kind.AuthEdge?
    ensures e in Built(inp).edges ==> AnyAuth(inp, e)
    ensures AnyAuth(inp, e) ==> exists f :: f in Built(inp).edges && AnyAuth(inp, f) && f.kind.AuthEdge?
                                         && f.source == e.source && f.target == e.target
  {
    PutAllKeeps(AllItems(inp));
    AuthEdgesEmitted(inp, e);
    if AnyAuth(inp, e) {
      ItemIsThere(inp, E(e));
      var f :| f in Built(inp).edges && f.id == e.id;
      assert E(f) in AllItems(inp);
      SameIdSameKind(inp, e, f);
      AuthEdgesEmitted(inp, f);
      AuthIsClean(inp, e);
      AuthIsClean(inp, f);
      AnyAuthLinks(inp, e);
      AnyAuthLinks(inp, f);
      AuthIdSplits(e, f, e.source, e.target, e.caption, f.source, f.target, f.caption);
    }
  }

  // ---------------------------------------------------------------------------
  // Relation by relation
  // ---------------------------------------------------------------------------

  lemma SourcesTellApart(a: string, b: string, c: string, d: string)
    ensures "svc:" + a != "app:" + b && "svc:" + a != "provider:" + c && "svc:" + a != "outpost:" + d
    ensures "app:" + b != "provider:" + c && "app:" + b != "outpost:" + d && "provider:" + c != "outpost:" + d
  {
    assert ("svc:" + a)[0] == 's' && ("app:" + b)[0] == 'a' && ("provider:" + c)[0] == 'p' && ("outpost:" + d)[0] == 'o';
  }

  lemma ServiceSource(inp: Input, e: Edge, gate: string) returns (key: string, from: string)
    requires AnyAuth(inp, e) && e.source == "svc:" + gate
    ensures GateSays(inp, key, from, e) && from == gate
  {
    if p, i: nat :| MatchSays(inp, p, i, e) { SourcesTellApart(gate, p.svc.authentik.value.applications[i].slug, "", ""); }
    if app, p :| ProviderSays(inp, app, p, e) { SourcesTellApart(gate, "", p.name, ""); }
    if app, p, o :| OutpostSays(inp, app, p, o, e) { SourcesTellApart(gate, "", "", o); }
    key, from :| GateSays(inp, key, from, e);
    DropPrefix(SVC, gate, from);
  }

  /** An auth edge between two services is in the graph exactly when the gate map sends the service at its target to the
      one at its source, and both are scanned and different; it carries the method of the service at its target. */
  lemma GateEdgesAre(inp: Input, key: string, gate: string, e: Edge)
    requires WellFed(inp) && WellNamed(inp.Placed()) && NamesAreClean(inp)
    requires e.kind.AuthEdge? && e.source == "svc:" + gate && e.target == "svc:" + key
    ensures e in Built(inp).edges <==> GateSays(inp, key, gate, e)
  {
    AuthEdgesKept(inp, e);
    if e in Built(inp).edges {
      GateEdgeSays(inp, key, gate, e);
    }
    if GateSays(inp, key, gate, e) {
      assert SomeGate(inp, e);
      var f :| f in Built(inp).edges && AnyAuth(inp, f) && f.kind.AuthEdge? && f.source == e.source && f.target == e.target;
      GateEdgeSays(inp, key, gate, f);
      SameGateEdge(inp, key, gate, e, f);
    }
  }

  lemma GateEdgeSays(inp: Input, key: string, gate: string, e: Edge)
    requires AnyAuth(inp, e) && e.source == "svc:" + gate && e.target == "svc:" + key
    ensures GateSays(inp, key, gate, e)
  {
    var k, g := ServiceSource(inp, e, gate);
    assert e.target == SVC + k;
    DropPrefix(SVC, key, k);
  }

  lemma SameGateEdge(inp: Input, key: string, gate: string, e: Edge, f: Edge)
    requires WellNamed(inp.Placed()) && GateSays(inp, key, gate, e) && GateSays(inp, key, gate, f)
    ensures e == f
  {
    var p :| p in inp.Placed() && p.Key() == key && Links(e, "svc:" + gate, "svc:" + key, OfMethod(p.svc.auth));
    var q :| q in inp.Placed() && q.Key() == key && Links(f, "svc:" + gate, "svc:" + key, OfMethod(q.svc.auth));
    KeysTellServices(inp.Placed(), p, q);
  }

  lemma ApplicationSource(inp: Input, e: Edge, slug: string) returns (p: Placed, i: nat)
    requires AnyAuth(inp, e) && e.source == "app:" + slug
    ensures MatchSays(inp, p, i, e) && p.svc.authentik.value.applications[i].slug == slug
  {
    if key, gate :| GateSays(inp, key, gate, e) { SourcesTellApart(gate, slug, "", ""); }
    if app, x :| ProviderSays(inp, app, x, e) { SourcesTellApart("", slug, x.name, ""); }
    if app, x, o :| OutpostSays(inp, app, x, o, e) { SourcesTellApart("", slug, "", o); }
    p, i :| MatchSays(inp, p, i, e);
    DropPrefix(APP, slug, p.svc.authentik.value.applications[i].slug);
  }

  /** The service's matches include one of an application with that slug, and this edge carries the strength of one. */
  ghost predicate Matched(inp: Input, slug: string, key: string, e: Edge) {
    exists p, i: nat :: MatchSays(inp, p, i, e) && p.Key() == key && p.svc.authentik.value.applications[i].slug == slug
  }

  lemma MatchEdgeSays(inp: Input, slug: string, key: string, e: Edge)
    requires AnyAuth(inp, e) && e.source == "app:" + slug && e.target == "svc:" + key
    ensures Matched(inp, slug, key, e)
  {
    var p, i := ApplicationSource(inp, e, slug);
    assert e.target == SVC + p.Key();
    DropPrefix(SVC, key, p.Key());
  }

  /** An auth edge from an application to a service is in the graph exactly when the application, by its slug, is among
      the service's matches, and it carries the strength of such a match, by name when none is given. */
  lemma MatchEdgesAre(inp: Input, slug: string, key: string, e: Edge)
    requires WellFed(inp) && WellNamed(inp.Placed()) && NamesAreClean(inp)
    requires e.kind.AuthEdge? && e.source == "app:" + slug && e.target == "svc:" + key
    ensures e in Built(inp).edges ==> Matched(inp, slug, key, e)
    ensures Matched(inp, slug, key, e) ==>
      exists f :: f in Built(inp).edges && Matched(inp, slug, key, f) && f.source == e.source && f.target == e.target
  {
    AuthEdgesKept(inp, e);
    if e in Built(inp).edges {
      MatchEdgeSays(inp, slug, key, e);
    }
    if Matched(inp, slug, key, e) {
      assert SomeMatch(inp, e);
      var f :| f in Built(inp).edges && AnyAuth(inp, f) && f.kind.AuthEdge? && f.source == e.source && f.target == e.target;
      MatchEdgeSays(inp, slug, key, f);
    }
  }

  /** And exactly that edge, when the service has one match of that slug. */
  lemma OneMatchOneEdge(inp: Input, p: Placed, i: nat, e: Edge)
    requires WellFed(inp) && WellNamed(inp.Placed()) && NamesAreClean(inp) && MatchSays(inp, p, i, e)
    requires var apps := p.svc.authentik.value.applications;
      forall j :: 0 <= j < |apps| && apps[j].slug == apps[i].slug ==> j == i
    ensures e in Built(inp).edges
  {
    var slug := p.svc.authentik.value.applications[i].slug;
    assert Matched(inp, slug, p.Key(), e);
    MatchEdgesAre(inp, slug, p.Key(), e);
    var f :| f in Built(inp).edges && Matched(inp, slug, p.Key(), f) && f.source == e.source && f.target == e.target;
    var q, j: nat :| MatchSays(inp, q, j, f) && q.Key() == p.Key() && q.svc.authentik.value.applications[j].slug == slug;
    SameMatchEdge(inp, p, i, e, q, j, f);
  }

  lemma SameMatchEdge(inp: Input, p: Placed, i: nat, e: Edge, q: Placed, j: nat, f: Edge)
    requires WellNamed(inp.Placed()) && MatchSays(inp, p, i, e) && MatchSays(inp, q, j, f) && q.Key() == p.Key()
    requires q.svc.authentik.value.applications[j].slug == p.svc.authentik.value.applications[i].slug
    requires var apps := p.svc.authentik.value.applications;
      forall k :: 0 <= k < |apps| && apps[k].slug == apps[i].slug ==> k == i
    ensures e == f
  {
    KeysTellServices(inp.Placed(), p, q);
  }

  ghost predicate Provides(inp: Input, name: string, slug: string, e: Edge) {
    exists app, p :: ProviderSays(inp, app, p, e) && p.name == name && app.slug == slug
  }

  lemma ProviderEdgeSays(inp: Input, name: string, slug: string, e: Edge)
    requires AnyAuth(inp, e) && e.source == "provider:" + name && e.target == "app:" + slug
    ensures Provides(inp, name, slug, e)
  {
    if key, gate :| GateSays(inp, key, gate, e) { SourcesTellApart(gate, "", name, ""); }
    if p, i: nat :| MatchSays(inp, p, i, e) { SourcesTellApart("", p.svc.authentik.value.applications[i].slug, name, ""); }
    if app, p, o :| OutpostSays(inp, app, p, o, e) { SourcesTellApart("", "", name, o); }
    var app, p :| ProviderSays(inp, app, p, e);
    DropPrefix(PROVIDER, name, p.name);
    DropPrefix(APP, slug, app.slug);
  }

  /** An auth edge from a provider to an application is in the graph exactly when an application in the diagram, by its
      slug, has a provider of that name, and it carries the kind of such a provider. */
  lemma ProviderEdgesAre(inp: Input, name: string, slug: string, e: Edge)
    requires WellFed(inp) && WellNamed(inp.Placed()) && NamesAreClean(inp)
    requires e.kind.AuthEdge? && e.source == "provider:" + name && e.target == "app:" + slug
    ensures e in Built(inp).edges ==> Provides(inp, name, slug, e)
    ensures Provides(inp, name, slug, e) ==>
      exists f :: f in Built(inp).edges && Provides(inp, name, slug, f) && f.source == e.source && f.target == e.target
  {
    AuthEdgesKept(inp, e);
    if e in Built(inp).edges {
      ProviderEdgeSays(inp, name, slug, e);
    }
    if Provides(inp, name, slug, e) {
      assert SomeProvider(inp, e);
      var f :| f in Built(inp).edges && AnyAuth(inp, f) && f.kind.AuthEdge? && f.source == e.source && f.target == e.target;
      ProviderEdgeSays(inp, name, slug, f);
    }
  }

  ghost predicate CarriedBy(inp: Input, outpost: string, name: string, e: Edge) {
    exists app, p :: OutpostSays(inp, app, p, outpost, e) && p.name == name
  }

  lemma OutpostEdgeSays(inp: Input, outpost: string, name: string, e: Edge)
    requires AnyAuth(inp, e) && e.source == "outpost:" + outpost && e.target == "provider:" + name
    ensures CarriedBy(inp, outpost, name, e)
  {
    if key, gate :| GateSays(inp, key, gate, e) { SourcesTellApart(gate, "", "", outpost); }
    if p, i: nat :| MatchSays(inp, p, i, e) { SourcesTellApart("", p.svc.authentik.value.applications[i].slug, "", outpost); }
    if app, p :| ProviderSays(inp, app, p, e) { SourcesTellApart("", "", p.name, outpost); }
    var app, p, o :| OutpostSays(inp, app, p, o, e);
    DropPrefix(OUTPOST, outpost, o);
    DropPrefix(PROVIDER, name, p.name);
  }

  /** An auth edge from an outpost to a provider is in the graph exactly when some provider of that name in the diagram is
      carried by that outpost, and it says nothing more. */
  lemma OutpostEdgesAre(inp: Input, outpost: string, name: string, e: Edge)
    requires WellFed(inp) && WellNamed(inp.Placed()) && NamesAreClean(inp)
    requires e.kind.AuthEdge? && e.source == "outpost:" + outpost && e.target == "provider:" + name
    ensures e in Built(inp).edges <==> CarriedBy(inp, outpost, name, e)
  {
    AuthEdgesKept(inp, e);
    if e in Built(inp).edges {
      OutpostEdgeSays(inp, outpost, name, e);
    }
    if CarriedBy(inp, outpost, name, e) {
      assert SomeOutpost(inp, e);
      var f :| f in Built(inp).edges && AnyAuth(inp, f) && f.kind.AuthEdge? && f.source == e.source && f.target == e.target;
      OutpostEdgeSays(inp, outpost, name, f);
      assert f == e;
    }
  }
}
