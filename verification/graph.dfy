/** The one graph every view reads (labview/internal/fleet/graph.go): a builder that adds nodes and edges once per id,
    fed section by section. Each section is written twice: as the items it emits, and as the loops that emit them. */
module Graphs {
  import opened Options
  import opened Lists
  import opened Ordering
  import opened Vocabulary
  import opened Fleet
  import opened Depends
  import N = Networks

  const SVC := "svc:"
  const NET := "net:"
  const VOL := "vol:"
  const HOST := "host:"
  const APP := "app:"
  const PROVIDER := "provider:"
  const OUTPOST := "outpost:"
  const ROUTER := "router:"
  const OUTSIDE := "outside"

  datatype NodeKind = ServiceNode | NetworkNode | VolumeNode | ExternalNode

  datatype NodeDetail =
    | OfService(stack: string, auth: AuthMethod, ingress: IngressKind, running: Option<bool>, proxy: bool)
    | OfNetwork(external: bool, members: nat, stacks: nat)
    | NoMore

  datatype Node = Node(id: string, caption: string, kind: NodeKind, detail: NodeDetail)

  datatype EdgeKind = NetworkEdge | DependsOnEdge | VolumeEdge | IngressEdge | AuthEdge {
    function Text(): string {
      match this
      case NetworkEdge => "network"
      case DependsOnEdge => "depends_on"
      case VolumeEdge => "volume"
      case IngressEdge => "ingress"
      case AuthEdge => "auth"
    }
  }

  datatype Flow = NoFlow | ToNetwork | ToService | BothWays

  datatype FlowSource = NoSource | FromObserved | FromDeclared | FromBoth

  datatype Caption = Plain(text: string) | OfMethod(auth: AuthMethod) | OfStrength(strength: Strength) | OfProvider(kind: ProviderKind)

  datatype Edge = Edge(
    id: string, source: string, target: string, kind: EdgeKind, caption: Caption, via: seq<string>, flow: Flow,
    flowSource: FlowSource, declaredBy: Option<(string, string)>)

  /** Everything the graph is built from. `gates` is the gate map in key order. */
  datatype Input = Input(
    stacks: seq<Stack>, nets: N.Index, deps: seq<Dependency>, proxies: set<string>, gates: seq<(string, string)>,
    unmatchedApps: seq<Application>, unmatchedRouters: seq<(string, string)>)
  {
    function Placed(): seq<Fleet.Placed> { Services(stacks) }
    predicate Has(key: string) { key in Keys(Placed()) }
  }

  function EdgeId(kind: EdgeKind, source: string, target: string): string { kind.Text() + "|" + source + "|" + target }

  function PlainEdge(kind: EdgeKind, source: string, target: string, caption: Caption): Edge {
    Edge(EdgeId(kind, source, target), source, target, kind, caption, [], NoFlow, NoSource, None)
  }

  /** One path per route: the label is part of the id. */
  function PathEdge(source: string, target: string, caption: string): Edge {
    PlainEdge(IngressEdge, source, target, Plain(caption)).(id := EdgeId(IngressEdge, source, target) + "|" + caption)
  }

  // ---------------------------------------------------------------------------
  // Adding once
  // ---------------------------------------------------------------------------

  /** One call of `node` or `edge`. */
  datatype Item = N(node: Node) | E(edge: Edge)

  function Id(item: Item): string { if item.N? then item.node.id else item.edge.id }

  datatype Graph = Graph(nodes: seq<Node>, edges: seq<Edge>, seen: set<string>)

  function Put(g: Graph, item: Item): Graph {
    if Id(item) in g.seen then g
    else match item
      case N(n) => Graph(g.nodes + [n], g.edges, g.seen + {n.id})
      case E(e) => Graph(g.nodes, g.edges + [e], g.seen + {e.id})
  }

  function PutAll(g: Graph, items: seq<Item>): Graph {
    if items == [] then g else Put(PutAll(g, items[..|items| - 1]), items[|items| - 1])
  }

  lemma {:induction false} PutAllAppend(g: Graph, a: seq<Item>, b: seq<Item>)
    ensures PutAll(g, a + b) == PutAll(PutAll(g, a), b)
  {
    if b == [] {
      assert a + b == a;
    } else {
      PutAllAppend(g, a, b[..|b| - 1]);
      assert (a + b)[..|a + b| - 1] == a + b[..|b| - 1];
    }
  }

  lemma PutOne(g: Graph, item: Item)
    ensures PutAll(g, [item]) == Put(g, item)
  {
    assert [item][..0] == [];
    assert PutAll(g, []) == g;
  }

  /** One round of a loop over `xs`. */
  lemma SectionStep<A>(g: Graph, xs: seq<A>, f: A -> seq<Item>, i: nat)
    requires i < |xs|
    ensures PutAll(g, FlatMap(xs[..i + 1], f)) == PutAll(PutAll(g, FlatMap(xs[..i], f)), f(xs[i]))
  {
    assert xs[..i + 1] == xs[..i] + [xs[i]];
    FlatMapAppend(xs[..i], xs[i], f);
    PutAllAppend(g, FlatMap(xs[..i], f), f(xs[i]));
  }

  // ---------------------------------------------------------------------------
  // What each section emits
  // ---------------------------------------------------------------------------

  function Winner(kinds: seq<IngressKind>): IngressKind {
    if Public in kinds then Public else if Traefik in kinds then Traefik else if Lan in kinds then Lan
    else if Internal in kinds then Internal else NoIngress
  }

  function ServiceOf(inp: Input, p: Placed): Node {
    Node(SVC + p.Key(), p.svc.name, ServiceNode,
         OfService(p.stackId, p.svc.auth, Winner(p.svc.ingress),
                   if p.svc.docker.Some? then Some(p.svc.docker.value.running) else None, p.Key() in inp.proxies))
  }

  function ServiceItems(inp: Input): Placed -> seq<Item> { (p: Placed) => [N(ServiceOf(inp, p))] }

  predicate IsDrawn(nets: N.Index, name: string) { name in nets.byName && nets.byName[name].Drawn() }

  function NetworkOf(nets: N.Index, name: string): Node
    requires name in nets.byName
  {
    var net := nets.byName[name];
    Node(NET + name, name, NetworkNode, OfNetwork(net.external, |net.members|, |net.stacks|))
  }

  function NetworkItems(nets: N.Index): string -> seq<Item> {
    (name: string) => if IsDrawn(nets, name) then [N(NetworkOf(nets, name))] else []
  }

  function VolumeOf(name: string): Node { Node(VOL + name, name, VolumeNode, NoMore) }

  function VolumeItems(): string -> seq<Item> { (name: string) => [N(VolumeOf(name))] }

  function StackVolumeItems(): Stack -> seq<Item> { (stack: Stack) => FlatMap(stack.volumes, VolumeItems()) }

  predicate Into(d: Dependency, key: string) { d.source != key && d.target == key }

  /** What crosses one service's connection to one network, and on whose word. */
  function Leg(deps: seq<Dependency>, key: string, name: string): (Flow, FlowSource) {
    var out := exists d :: d in deps && name in d.via && d.source == key;
    var into := exists d :: d in deps && name in d.via && Into(d, key);
    var observed := exists d :: d in deps && name in d.via && (d.source == key || Into(d, key)) && d.observed;
    var declared := exists d :: d in deps && name in d.via && (d.source == key || Into(d, key)) && d.declared;
    LegFrom(out, into, observed, declared)
  }

  function LegFrom(out: bool, into: bool, observed: bool, declared: bool): (Flow, FlowSource) {
    if !out && !into then (NoFlow, NoSource)
    else
      var flow := if out && into then BothWays else if out then ToNetwork else ToService;
      (flow, if observed && declared then FromBoth else if declared then FromDeclared else FromObserved)
  }

  function MembershipEdge(deps: seq<Dependency>, key: string, name: string): Edge {
    var (flow, source) := Leg(deps, key, name);
    PlainEdge(NetworkEdge, SVC + key, NET + name, Plain("")).(flow := flow, flowSource := source)
  }

  function MembershipItems(inp: Input, key: string): string -> seq<Item> {
    (name: string) => if IsDrawn(inp.nets, name) then [E(MembershipEdge(inp.deps, key, name))] else []
  }

  function ServiceMemberships(inp: Input): Placed -> seq<Item> {
    (p: Placed) => FlatMap(N.Of(inp.nets, p.Key()), MembershipItems(inp, p.Key()))
  }

  function Joined(via: seq<string>): string {
    if via == [] then "" else if |via| == 1 then via[0] else Joined(via[..|via| - 1]) + ", " + via[|via| - 1]
  }

  function DependencyEdge(d: Dependency): Edge {
    PlainEdge(DependsOnEdge, SVC + d.source, SVC + d.target, Plain(Joined(d.via)))
      .(via := d.via, declaredBy := if d.DeclaredOnly() then Some((d.file, d.detail)) else None)
  }

  function DependencyItems(): Dependency -> seq<Item> { (d: Dependency) => [E(DependencyEdge(d))] }

  /** The first declared volume a mount's source names, written in full or as the project's. */
  function DeclaredVolume(stack: Stack, volumes: seq<string>, source: string): Option<string> {
    if volumes == [] then None
    else if volumes[0] == source || volumes[0] == stack.projectName + "_" + source then Some(volumes[0])
    else DeclaredVolume(stack, volumes[1..], source)
  }

  function MountItems(stack: Stack, key: string): Mount -> seq<Item> {
    (m: Mount) =>
      if !m.isVolume || m.source == "" then [] else
        match DeclaredVolume(stack, stack.volumes, m.source)
        case None => []
        case Some(name) => [E(PlainEdge(VolumeEdge, SVC + key, VOL + name, Plain(m.target)))]
  }

  function ServiceMounts(stack: Stack): Placed -> seq<Item> { (p: Placed) => FlatMap(p.svc.mounts, MountItems(stack, p.Key())) }

  function StackMounts(): Stack -> seq<Item> { (stack: Stack) => FlatMap(InStack(stack), ServiceMounts(stack)) }

  function Outsider(id: string, caption: string): Node { Node(id, caption, ExternalNode, NoMore) }

  /** The left-hand end of a path: the outside, the hostname, and the one edge between them. */
  function HostnameItems(host: string): seq<Item> {
    [N(Outsider(OUTSIDE, "outside")), N(Outsider(HOST + host, host)),
     E(PlainEdge(IngressEdge, OUTSIDE, HOST + host, Plain("")))]
  }

  predicate ThroughHop(r: CloudRoute) {
    r.origin.Some? && r.origin.value.kind.FleetService? && r.origin.value.hopKey != ""
  }

  function CloudItems(key: string): CloudRoute -> seq<Item> {
    (r: CloudRoute) =>
      if r.hostname == "" then []
      else if ThroughHop(r) then
        var hop := SVC + r.origin.value.hopKey;
        HostnameItems(r.hostname)
          + [E(PathEdge(HOST + r.hostname, hop, "tunnel")), E(PathEdge(hop, SVC + key, r.origin.value.address.raw))]
      else HostnameItems(r.hostname) + [E(PathEdge(HOST + r.hostname, SVC + key, "tunnel"))]
  }

  function RouterHostItems(key: string, router: string): string -> seq<Item> {
    (host: string) => HostnameItems(host) + [E(PathEdge(HOST + host, SVC + key, router))]
  }

  function RouterItems(key: string): TraefikRoute -> seq<Item> { (r: TraefikRoute) => FlatMap(r.hosts, RouterHostItems(key, r.router)) }

  function ServiceIngresses(): Placed -> seq<Item> {
    (p: Placed) => FlatMap(p.svc.cloudflare, CloudItems(p.Key())) + FlatMap(p.svc.traefik, RouterItems(p.Key()))
  }

  function OutpostItems(provider: string): string -> seq<Item> {
    (outpost: string) => [N(Outsider(OUTPOST + outpost, outpost)), E(PlainEdge(AuthEdge, OUTPOST + outpost, PROVIDER + provider, Plain("")))]
  }

  function ProviderItems(slug: string): Provider -> seq<Item> {
    (p: Provider) =>
      [N(Outsider(PROVIDER + p.name, p.name)), E(PlainEdge(AuthEdge, PROVIDER + p.name, APP + slug, OfProvider(p.kind)))]
        + FlatMap(Sort(StrLess, p.outposts), OutpostItems(p.name))
  }

  function ApplicationItems(): Application -> seq<Item> {
    (app: Application) => [N(Outsider(APP + app.slug, app.name))] + FlatMap(app.providers, ProviderItems(app.slug))
  }

  /** Each application with its strength; one past the strengths reads as matched by name. */
  function WithStrength(m: AuthentikMatch): seq<(Application, Strength)> {
    seq(|m.applications|, i requires 0 <= i < |m.applications| =>
      (m.applications[i], if i < |m.strength| then m.strength[i] else NameMatch))
  }

  function MatchItems(key: string): ((Application, Strength)) -> seq<Item> {
    (m: (Application, Strength)) => ApplicationItems()(m.0) + [E(PlainEdge(AuthEdge, APP + m.0.slug, SVC + key, OfStrength(m.1)))]
  }

  function ServiceMatches(): Placed -> seq<Item> {
    (p: Placed) => if p.svc.authentik.None? then [] else FlatMap(WithStrength(p.svc.authentik.value), MatchItems(p.Key()))
  }

  function AuthOf(placed: seq<Placed>, key: string): AuthMethod {
    if placed == [] then Unset else if placed[|placed| - 1].Key() == key then placed[|placed| - 1].svc.auth
    else AuthOf(placed[..|placed| - 1], key)
  }

  function GateItems(inp: Input): ((string, string)) -> seq<Item> {
    (g: (string, string)) =>
      if g.1 == "" || g.1 == g.0 || !inp.Has(g.1) || !inp.Has(g.0) then []
      else [E(PlainEdge(AuthEdge, SVC + g.1, SVC + g.0, OfMethod(AuthOf(inp.Placed(), g.0))))]
  }

  function UnmatchedRouterItems(): ((string, string)) -> seq<Item> {
    (r: (string, string)) => [N(Outsider(ROUTER + r.0 + "@" + r.1, r.0))]
  }

  function NodeSections(inp: Input): seq<Item> {
    FlatMap(inp.Placed(), ServiceItems(inp)) + FlatMap(inp.nets.order, NetworkItems(inp.nets)) + FlatMap(inp.stacks, StackVolumeItems())
  }

  function RelationSections(inp: Input): seq<Item> {
    FlatMap(inp.Placed(), ServiceMemberships(inp)) + FlatMap(inp.deps, DependencyItems())
  }

  function OtherSections(inp: Input): seq<Item> {
    FlatMap(inp.stacks, StackMounts()) + FlatMap(inp.Placed(), ServiceIngresses()) + AuthSections(inp)
  }

  function AuthSections(inp: Input): seq<Item> {
    FlatMap(inp.gates, GateItems(inp)) + FlatMap(inp.Placed(), ServiceMatches())
      + FlatMap(inp.unmatchedApps, ApplicationItems()) + FlatMap(inp.unmatchedRouters, UnmatchedRouterItems())
  }

  function AllItems(inp: Input): seq<Item> { NodeSections(inp) + RelationSections(inp) + OtherSections(inp) }

  const EMPTY := Graph([], [], {})

  /** The graph the source returns. */
  function Built(inp: Input): Graph { PutAll(EMPTY, AllItems(inp)) }
}
