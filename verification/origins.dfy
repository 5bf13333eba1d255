/** Where a tunnel route's declared origin leads (labview/internal/fleet/origins.go). */
module Origins {
  import opened Options
  import opened Text
  import opened Lists
  import opened Fleet
  import opened FleetIndex
  import N = Networks

  predicate NamesSelf(svc: Service, host: string) {
    Fold(svc.name) == host || Fold(svc.containerName) == host || (svc.docker.Some? && Fold(svc.docker.value.name) == host)
  }

  /** A single reachable candidate is the hop; none or several leaves the origin unresolved. */
  function Hop(a: Address, reachable: seq<string>): (OriginTarget, seq<Note>) {
    if |reachable| == 1 then (OriginTarget(a, FleetService, reachable[0]), [])
    else (OriginTarget(a, Unresolved, ""), [OriginUnresolved(a)])
  }

  function ResolveHostPort(ix: Index, nets: N.Index, key: string, a: Address): (OriginTarget, seq<Note>) {
    if a.port == "" then (OriginTarget(a, Unresolved, ""), [OriginUnresolved(a)])
    else if key in ByHostPort(ix, a.port) then (OriginTarget(a, SelfHostPort, ""), [])
    else Hop(a, Reachable(nets, key, ByHostPort(ix, a.port)))
  }

  function ResolveContainerName(ix: Index, nets: N.Index, key: string, a: Address): (OriginTarget, seq<Note>) {
    Hop(a, Reachable(nets, key, ByName(ix, a.host)))
  }

  /** The whole table, in order: no host, the service itself, a published host port, a container name, anything else. */
  function ResolveOrigin(ix: Index, nets: N.Index, key: string, svc: Service, a: Address): (OriginTarget, seq<Note>) {
    if a.host == "" then (OriginTarget(a, Unresolved, ""), [OriginUnresolved(a)])
    else if !a.isIP && NamesSelf(svc, a.host) then (OriginTarget(a, SelfNetwork, ""), [])
    else if a.isIP then ResolveHostPort(ix, nets, key, a)
    else if a.isBareName then ResolveContainerName(ix, nets, key, a)
    else (OriginTarget(a, Unresolved, ""), [OriginUnresolved(a)])
  }

  // ---------------------------------------------------------------------------
  // One service's routes, and the fleet's
  // ---------------------------------------------------------------------------

  function RouteResolved(ix: Index, nets: N.Index, key: string, svc: Service, r: CloudRoute): CloudRoute {
    if r.service == "" then r else r.(origin := Some(ResolveOrigin(ix, nets, key, svc, r.address).0))
  }

  function RouteNotes(ix: Index, nets: N.Index, key: string, svc: Service, r: CloudRoute): seq<Note> {
    if r.service == "" then [] else ResolveOrigin(ix, nets, key, svc, r.address).1
  }

  function RoutesUpTo(ix: Index, nets: N.Index, key: string, svc: Service, n: nat): seq<CloudRoute>
    requires n <= |svc.cloudflare|
  {
    if n == 0 then [] else RoutesUpTo(ix, nets, key, svc, n - 1) + [RouteResolved(ix, nets, key, svc, svc.cloudflare[n - 1])]
  }

  lemma {:induction false} RoutesAre(ix: Index, nets: N.Index, key: string, svc: Service, n: nat)
    requires n <= |svc.cloudflare|
    ensures var out := RoutesUpTo(ix, nets, key, svc, n);
      |out| == n && forall i :: 0 <= i < n ==> out[i] == RouteResolved(ix, nets, key, svc, svc.cloudflare[i])
  {
    if n > 0 {
      RoutesAre(ix, nets, key, svc, n - 1);
    }
  }

  function NotesUpTo(ix: Index, nets: N.Index, key: string, svc: Service, n: nat): seq<Note>
    requires n <= |svc.cloudflare|
  {
    if n == 0 then [] else NotesUpTo(ix, nets, key, svc, n - 1) + RouteNotes(ix, nets, key, svc, svc.cloudflare[n - 1])
  }

  /** The service with every route resolved, and a note for each that was not. */
  function Resolved(ix: Index, nets: N.Index, p: Placed): Placed {
    var svc, n := p.svc, |p.svc.cloudflare|;
    p.(svc := svc.(cloudflare := RoutesUpTo(ix, nets, p.Key(), svc, n), notes := svc.notes + NotesUpTo(ix, nets, p.Key(), svc, n)))
  }

  predicate ResolvedToHop(r: CloudRoute) {
    r.service != "" && r.origin.Some? && r.origin.value.kind.FleetService?
  }

  /** The hops a list of routes resolved to. */
  function Hops(routes: seq<CloudRoute>): set<string> {
    if routes == [] then {} else
      var r := routes[|routes| - 1];
      Hops(routes[..|routes| - 1]) + HopOf(r)
  }

  /** Every hop any service's routes resolved to. */
  function AllHops(placed: seq<Placed>): set<string> {
    if placed == [] then {} else AllHops(placed[..|placed| - 1]) + Hops(placed[|placed| - 1].svc.cloudflare)
  }

  /** The whole walk: every service with its origins resolved, and the set of services something resolved to. */
  method Origins(placed: seq<Placed>, ix: Index, nets: N.Index) returns (out: seq<Placed>, proxies: set<string>)
    ensures |out| == |placed| && forall i :: 0 <= i < |placed| ==> out[i] == Resolved(ix, nets, placed[i])
    ensures proxies == AllHops(out)
  {
    out, proxies := [], {};
    var i := 0;
    while i < |placed|
      invariant 0 <= i <= |placed| && |out| == i && proxies == AllHops(out)
      invariant forall j :: 0 <= j < i ==> out[j] == Resolved(ix, nets, placed[j])
    {
      var p, hops := ServiceOrigins(ix, nets, placed[i]);
      assert (out + [p])[..i] == out;
      out, proxies := out + [p], proxies + hops;
      i := i + 1;
    }
  }

  method ServiceOrigins(ix: Index, nets: N.Index, p: Placed) returns (q: Placed, hops: set<string>)
    ensures q == Resolved(ix, nets, p) && hops == Hops(q.svc.cloudflare)
  {
    var routes, notes, found := ResolveRoutes(ix, nets, p.Key(), p.svc);
    q, hops := p.(svc := p.svc.(cloudflare := routes, notes := p.svc.notes + notes)), found;
  }

  function HopOf(r: CloudRoute): set<string> {
    if ResolvedToHop(r) then {r.origin.value.hopKey} else {}
  }

  lemma HopsAppend(routes: seq<CloudRoute>, r: CloudRoute)
    ensures Hops(routes + [r]) == Hops(routes) + HopOf(r)
  {
    assert (routes + [r])[..|routes|] == routes;
  }

  /** The inner loop: one service's routes. */
  method ResolveRoutes(ix: Index, nets: N.Index, key: string, svc: Service)
    returns (routes: seq<CloudRoute>, notes: seq<Note>, hops: set<string>)
    ensures routes == RoutesUpTo(ix, nets, key, svc, |svc.cloudflare|)
    ensures notes == NotesUpTo(ix, nets, key, svc, |svc.cloudflare|) && hops == Hops(routes)
  {
    routes, notes, hops := [], [], {};
    var n := 0;
    while n < |svc.cloudflare|
      invariant 0 <= n <= |svc.cloudflare| && AfterRoutes(ix, nets, key, svc, n) == (routes, notes, hops)
    {
      var r, note, hop := ResolveRoute(ix, nets, key, svc, svc.cloudflare[n]);
      OneMoreRoute(ix, nets, key, svc, n);
      routes, notes, hops := routes + [r], notes + note, hops + hop;
      n := n + 1;
    }
  }

  ghost function AfterRoutes(ix: Index, nets: N.Index, key: string, svc: Service, n: nat): (seq<CloudRoute>, seq<Note>, set<string>)
    requires n <= |svc.cloudflare|
  {
    (RoutesUpTo(ix, nets, key, svc, n), NotesUpTo(ix, nets, key, svc, n), Hops(RoutesUpTo(ix, nets, key, svc, n)))
  }

  lemma OneMoreRoute(ix: Index, nets: N.Index, key: string, svc: Service, n: nat)
    requires n < |svc.cloudflare|
    ensures var (routes, notes, hops) := AfterRoutes(ix, nets, key, svc, n);
      var r := RouteResolved(ix, nets, key, svc, svc.cloudflare[n]);
      AfterRoutes(ix, nets, key, svc, n + 1) == (routes + [r], notes + RouteNotes(ix, nets, key, svc, svc.cloudflare[n]), hops + HopOf(r))
  {
    HopsAppend(RoutesUpTo(ix, nets, key, svc, n), RouteResolved(ix, nets, key, svc, svc.cloudflare[n]));
  }

  /** The body of that loop. */
  method ResolveRoute(ix: Index, nets: N.Index, key: string, svc: Service, route: CloudRoute)
    returns (r: CloudRoute, notes: seq<Note>, hops: set<string>)
    ensures r == RouteResolved(ix, nets, key, svc, route) && notes == RouteNotes(ix, nets, key, svc, route) && hops == HopOf(r)
  {
    r, notes, hops := route, [], {};
    if r.service != "" {
      var (target, note) := ResolveOrigin(ix, nets, key, svc, r.address);
      r, notes := r.(origin := Some(target)), note;
    }
    if ResolvedToHop(r) {
      hops := {r.origin.value.hopKey};
    }
  }

  lemma {:induction false} HopsHave(routes: seq<CloudRoute>, k: string)
    ensures k in Hops(routes) <==> exists r :: r in routes && ResolvedToHop(r) && r.origin.value.hopKey == k
  {
    if routes != [] {
      SplitLast(routes);
      HopsHave(routes[..|routes| - 1], k);
    }
  }

  ghost predicate HopFor(p: Placed, k: string) {
    exists r :: r in p.svc.cloudflare && ResolvedToHop(r) && r.origin.value.hopKey == k
  }

  /** The proxies are the hops, no more and no fewer. */
  lemma {:induction false} ProxiesAreTheHops(placed: seq<Placed>, k: string)
    ensures k in AllHops(placed) <==> exists p :: p in placed && HopFor(p, k)
  {
    if placed != [] {
      SplitLast(placed);
      var last, before := placed[|placed| - 1], placed[..|placed| - 1];
      ProxiesAreTheHops(before, k);
      HopsHave(last.svc.cloudflare, k);
      assert k in Hops(last.svc.cloudflare) <==> HopFor(last, k);
    }
  }

  // ---------------------------------------------------------------------------
  // Exactly when a hop is named
  // ---------------------------------------------------------------------------

  /** The address reaches this service: by a published port when it is an IP literal, by a container name otherwise. */
  ghost predicate Answers(p: Placed, a: Address) {
    Mentions(if a.isIP then PublishedPorts(p.svc) else DnsNames(p.svc), Fold(if a.isIP then a.port else a.host))
  }

  /** Some other service of that key answers the address and shares a network with the declaring one. */
  ghost predicate CanForward(placed: seq<Placed>, ats: seq<N.Attachment>, key: string, a: Address, k: string) {
    && k != key && (exists p :: p in placed && p.Key() == k && Answers(p, a))
    && exists n :: N.On(ats, key, n) && N.On(ats, k, n)
  }

  ghost predicate OnlyForwarder(placed: seq<Placed>, ats: seq<N.Attachment>, key: string, a: Address, k: string) {
    CanForward(placed, ats, key, a, k) && forall j :: CanForward(placed, ats, key, a, j) ==> j == k
  }

  /** The service itself answers, or the address is one this table never follows. */
  ghost predicate NotFollowed(placed: seq<Placed>, key: string, svc: Service, a: Address) {
    || a.host == ""
    || (a.isIP && (a.port == "" || exists p :: p in placed && p.Key() == key && Answers(p, a)))
    || (!a.isIP && (NamesSelf(svc, a.host) || !a.isBareName))
  }

  lemma OneCandidate(placed: seq<Placed>, ats: seq<N.Attachment>, external: set<string>, key: string, a: Address)
    ensures var ix, nets := IndexOf(placed), N.IndexOf(ats, external);
      var reachable := Reachable(nets, key, if a.isIP then ByHostPort(ix, a.port) else ByName(ix, a.host));
      Distinct(reachable) && forall k :: k in reachable <==> CanForward(placed, ats, key, a, k)
  {
    var ix, nets := IndexOf(placed), N.IndexOf(ats, external);
    var candidates := if a.isIP then ByHostPort(ix, a.port) else ByName(ix, a.host);
    LookupsAgreeWithTheFleet(placed, if a.isIP then a.port else a.host, "");
    ReachableIs(nets, key, candidates);
    forall k ensures k in Reachable(nets, key, candidates) <==> CanForward(placed, ats, key, a, k) {
      LookupsAgreeWithTheFleet(placed, if a.isIP then a.port else a.host, k);
      N.SharingIsSymmetric(ats, external, key, k);
    }
  }

  lemma HopNamesTheOnlyOne(placed: seq<Placed>, ats: seq<N.Attachment>, key: string, a: Address, reachable: seq<string>)
    requires Distinct(reachable) && forall k :: k in reachable <==> CanForward(placed, ats, key, a, k)
    ensures var (target, notes) := Hop(a, reachable);
      && (target.kind.FleetService? <==> exists k :: OnlyForwarder(placed, ats, key, a, k))
      && (target.kind.FleetService? ==> CanForward(placed, ats, key, a, target.hopKey))
  {
    SingleOrNot(reachable);
    if |reachable| == 1 {
      assert OnlyForwarder(placed, ats, key, a, reachable[0]);
    }
    if exists k :: OnlyForwarder(placed, ats, key, a, k) {
      var k :| OnlyForwarder(placed, ats, key, a, k);
      assert k in reachable && forall y :: y in reachable ==> y == k;
    }
  }

  /** The table in two lines: an address it follows is decided by its reachable candidates, and no other names a hop. */
  lemma TableIs(ix: Index, nets: N.Index, key: string, svc: Service, a: Address)
    ensures var followed := a.host != "" &&
        if a.isIP then a.port != "" && key !in ByHostPort(ix, a.port) else !NamesSelf(svc, a.host) && a.isBareName;
      var (target, notes) := ResolveOrigin(ix, nets, key, svc, a);
      && (followed ==> (target, notes) == Hop(a, Reachable(nets, key, if a.isIP then ByHostPort(ix, a.port) else ByName(ix, a.host))))
      && (!followed ==> !target.kind.FleetService?)
      && (!target.kind.FleetService? ==> target.hopKey == "")
      && (notes == [OriginUnresolved(a)] <==> target.kind.Unresolved?) && (notes == [] <==> !target.kind.Unresolved?)
  {
  }

  lemma SelfAnswers(placed: seq<Placed>, key: string, a: Address)
    requires a.isIP
    ensures key in ByHostPort(IndexOf(placed), a.port) <==> exists p :: p in placed && p.Key() == key && Answers(p, a)
  {
    LookupsAgreeWithTheFleet(placed, a.port, key);
  }

  /** An origin resolves to a hop exactly when the address is one the table follows and exactly one other service both
      answers it and shares a network; the hop is that service, never the declaring one; and an origin left
      unresolved, and no other, leaves a note. */
  lemma HopIsTheOnlyForwarder(placed: seq<Placed>, ats: seq<N.Attachment>, external: set<string>, key: string, svc: Service, a: Address)
    ensures var (target, notes) := ResolveOrigin(IndexOf(placed), N.IndexOf(ats, external), key, svc, a);
      && (target.kind.FleetService? <==> !NotFollowed(placed, key, svc, a) && exists k :: OnlyForwarder(placed, ats, key, a, k))
      && (target.kind.FleetService? ==> CanForward(placed, ats, key, a, target.hopKey) && target.hopKey != key)
      && (!target.kind.FleetService? ==> target.hopKey == "")
      && (notes == [OriginUnresolved(a)] <==> target.kind.Unresolved?) && (notes == [] <==> !target.kind.Unresolved?)
  {
    var ix, nets := IndexOf(placed), N.IndexOf(ats, external);
    TableIs(ix, nets, key, svc, a);
    OneCandidate(placed, ats, external, key, a);
    HopNamesTheOnlyOne(placed, ats, key, a, Reachable(nets, key, if a.isIP then ByHostPort(ix, a.port) else ByName(ix, a.host)));
    if a.isIP {
      SelfAnswers(placed, key, a);
    }
  }
}
