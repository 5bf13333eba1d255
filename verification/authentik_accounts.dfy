/** What a match says about a service's gate (labview/internal/authentik/match.go): the posture accounts of the providers
    that enforce something, and a note for each that does not and for each way in that passes none. */
module AuthentikAccounts {
  import opened Options
  import opened Lists
  import opened Vocabulary
  import opened Fleet
  import opened FleetIndex
  import Declare

  /** The method a provider kind maps to; three kinds have none. */
  function MethodOf(kind: ProviderKind): Option<AuthMethod> {
    match kind
    case Proxy => Some(AuthentikForwardAuth)
    case OAuth2 => Some(AuthentikOAuth)
    case LdapProvider => Some(AuthentikLDAP)
    case _ => None
  }

  predicate NeedsOutpost(kind: ProviderKind) { kind.Proxy? || kind.LdapProvider? || kind.Radius? }

  function KindText(kind: ProviderKind): string {
    match kind
    case Proxy => "proxy"
    case LdapProvider => "ldap"
    case Radius => "radius"
    case OAuth2 => "oauth2"
    case Saml => "saml"
    case OtherProvider => "other"
  }

  /** A provider that enforces nothing for want of an outpost, or a tunnel route that goes round one that does. */
  datatype MatchNote =
    | NoOutpost(slug: string, provider: string, kind: ProviderKind)
    | Unpassed(hostname: string, address: string, outposts: seq<string>, slug: string)

  // ---------------------------------------------------------------------------
  // Accounts
  // ---------------------------------------------------------------------------

  function DetailOf(slug: string, kind: ProviderKind, byName: bool): string {
    "Authentik application `" + slug + "` has a " + KindText(kind) + " provider"
      + (if byName then " \U{2014} tied to this service by name alone" else "")
  }

  /** Confidence follows how the application was tied, never the provider. */
  function AccountOf(app: Application, p: Provider, strength: Strength, evidence: string): Account
    requires MethodOf(p.kind).Some?
  {
    Account(MethodOf(p.kind).value, DetailOf(app.slug, p.kind, strength.NameMatch?),
            if strength.NameMatch? then Observed else Confirmed,
            [Other(evidence)] + (if |p.outposts| > 0 then [Carried(p.outposts)] else []), p.internalHost, true)
  }

  /** A kind with no method says nothing; a provider that needs an outpost and has none is a note. */
  function Says(app: Application, strength: Strength, evidence: string): Provider -> seq<Account> {
    (p: Provider) =>
      if MethodOf(p.kind).None? || (NeedsOutpost(p.kind) && |p.outposts| == 0) then [] else [AccountOf(app, p, strength, evidence)]
  }

  function Lacks(app: Application): Provider -> seq<MatchNote> {
    (p: Provider) =>
      if MethodOf(p.kind).Some? && NeedsOutpost(p.kind) && |p.outposts| == 0 then [NoOutpost(app.slug, p.name, p.kind)] else []
  }

  method AccountsFor(app: Application, strength: Strength, evidence: string) returns (accounts: seq<Account>, notes: seq<MatchNote>)
    ensures accounts == FlatMap(app.providers, Says(app, strength, evidence)) && notes == FlatMap(app.providers, Lacks(app))
  {
    accounts, notes := [], [];
    var ps, i := app.providers, 0;
    while i < |ps|
      invariant 0 <= i <= |ps|
      invariant accounts == FlatMap(ps[..i], Says(app, strength, evidence)) && notes == FlatMap(ps[..i], Lacks(app))
    {
      OneMoreProvider(ps, i, Says(app, strength, evidence));
      OneMoreProvider(ps, i, Lacks(app));
      var account, note := AccountFor(app, ps[i], strength, evidence);
      accounts, notes := accounts + account, notes + note;
      i := i + 1;
    }
    assert ps[..i] == ps;
  }

  /** The body of that loop. */
  method AccountFor(app: Application, p: Provider, strength: Strength, evidence: string)
    returns (accounts: seq<Account>, notes: seq<MatchNote>)
    ensures accounts == Says(app, strength, evidence)(p) && notes == Lacks(app)(p)
  {
    accounts, notes := [], [];
    var auth := MethodOf(p.kind);
    if auth.None? {
      return;
    }
    if NeedsOutpost(p.kind) && |p.outposts| == 0 {
      notes := [NoOutpost(app.slug, p.name, p.kind)];
      return;
    }
    accounts := [AccountOf(app, p, strength, evidence)];
  }

  lemma OneMoreProvider<B>(ps: seq<Provider>, i: nat, f: Provider -> seq<B>)
    requires i < |ps|
    ensures FlatMap(ps[..i + 1], f) == FlatMap(ps[..i], f) + f(ps[i])
  {
    assert ps[..i + 1] == ps[..i] + [ps[i]];
    FlatMapAppend(ps[..i], ps[i], f);
  }

  // ---------------------------------------------------------------------------
  // Routes past an outpost
  // ---------------------------------------------------------------------------

  /** The service of that key, or none. */
  function ServiceAt(placed: seq<Placed>, key: string): Option<Service> {
    if placed == [] then None
    else if placed[|placed| - 1].Key() == key then Some(placed[|placed| - 1].svc)
    else ServiceAt(placed[..|placed| - 1], key)
  }

  predicate StraightIn(r: CloudRoute) { r.origin.Some? && r.origin.value.kind.SelfNetwork? }

  /** The outposts that enforce this provider forward to this service and no other. */
  predicate ForwardsHere(parse: string -> Address, ix: Index, key: string, p: Provider) {
    p.kind.Proxy? && Declare.ProviderEnforced(p) && p.internalHost != "" && GateService(ix, parse(p.internalHost)) == Some(key)
  }

  function RoutePast(app: Application, p: Provider): CloudRoute -> seq<MatchNote> {
    (r: CloudRoute) => if StraightIn(r) then [Unpassed(r.hostname, r.origin.value.address.raw, p.outposts, app.slug)] else []
  }

  function ProviderPast(parse: string -> Address, ix: Index, key: string, app: Application, svc: Service): Provider -> seq<MatchNote> {
    (p: Provider) => if ForwardsHere(parse, ix, key, p) then FlatMap(svc.cloudflare, RoutePast(app, p)) else []
  }

  function PastOutposts(parse: string -> Address, ix: Index, key: string, app: Application): seq<MatchNote> {
    var svc := ServiceAt(ix.placed, key);
    if svc.None? then [] else FlatMap(app.providers, ProviderPast(parse, ix, key, app, svc.value))
  }

  method UnpassedOutposts(parse: string -> Address, ix: Index, key: string, app: Application) returns (notes: seq<MatchNote>)
    ensures notes == PastOutposts(parse, ix, key, app)
  {
    notes := [];
    var svc := ServiceAt(ix.placed, key);
    if svc.None? {
      return;
    }
    var ps, i := app.providers, 0;
    while i < |ps|
      invariant 0 <= i <= |ps| && notes == FlatMap(ps[..i], ProviderPast(parse, ix, key, app, svc.value))
    {
      OneMoreProvider(ps, i, ProviderPast(parse, ix, key, app, svc.value));
      var past := RoutesPast(parse, ix, key, app, svc.value, ps[i]);
      notes := notes + past;
      i := i + 1;
    }
    assert ps[..i] == ps;
  }

  /** The body of that loop. */
  method RoutesPast(parse: string -> Address, ix: Index, key: string, app: Application, svc: Service, p: Provider)
    returns (notes: seq<MatchNote>)
    ensures notes == ProviderPast(parse, ix, key, app, svc)(p)
  {
    notes := [];
    if !ForwardsHere(parse, ix, key, p) {
      return;
    }
    var rs, i := svc.cloudflare, 0;
    while i < |rs|
      invariant 0 <= i <= |rs| && notes == FlatMap(rs[..i], RoutePast(app, p))
    {
      assert rs[..i + 1] == rs[..i] + [rs[i]];
      FlatMapAppend(rs[..i], rs[i], RoutePast(app, p));
      if StraightIn(rs[i]) {
        notes := notes + [Unpassed(rs[i].hostname, rs[i].origin.value.address.raw, p.outposts, app.slug)];
      }
      i := i + 1;
    }
    assert rs[..i] == rs;
  }

  // ---------------------------------------------------------------------------
  // What they mean
  // ---------------------------------------------------------------------------

  /** The gate the exposure verdict asks about and the accounts the posture reads are the same providers: an account is
      there exactly for an enforced provider of a kind with a method, and a note exactly for one that enforces nothing. */
  lemma AccountsAreTheEnforced(app: Application, strength: Strength, evidence: string, a: Account)
    ensures a in FlatMap(app.providers, Says(app, strength, evidence)) <==>
      exists p :: p in app.providers && Declare.ProviderEnforced(p) && MethodOf(p.kind).Some? && a == AccountOf(app, p, strength, evidence)
  {
    FlatMapHas(app.providers, Says(app, strength, evidence), a);
  }

  lemma NotesAreTheUnenforced(app: Application, name: string, kind: ProviderKind)
    ensures NoOutpost(app.slug, name, kind) in FlatMap(app.providers, Lacks(app)) <==>
      exists p :: p in app.providers && !Declare.ProviderEnforced(p) && MethodOf(kind).Some? && p.name == name && p.kind == kind
  {
    FlatMapHas(app.providers, Lacks(app), NoOutpost(app.slug, name, kind));
  }

  function Mapped(ps: seq<Provider>): nat {
    if ps == [] then 0 else Mapped(ps[..|ps| - 1]) + (if MethodOf(ps[|ps| - 1].kind).Some? then 1 else 0)
  }

  /** Every provider of a kind with a method is accounted for once, as an account or as a note. */
  lemma {:induction false} ProvidersAreAccountedFor(app: Application, strength: Strength, evidence: string, ps: seq<Provider>)
    ensures |FlatMap(ps, Says(app, strength, evidence))| + |FlatMap(ps, Lacks(app))| == Mapped(ps)
  {
    if ps != [] {
      ProvidersAreAccountedFor(app, strength, evidence, ps[..|ps| - 1]);
    }
  }

  ghost predicate SomeEnforced(app: Application) { exists p :: p in app.providers && Declare.ProviderEnforced(p) }

  /** A matched application takes a service out of the exposure finding without an account of a gate exactly when all
      that enforces it is of a kind with no method: SAML, or RADIUS behind an outpost. */
  lemma GateWithoutAnAccount(app: Application, strength: Strength, evidence: string)
    requires SomeEnforced(app)
    ensures FlatMap(app.providers, Says(app, strength, evidence)) == [] <==>
      forall p :: p in app.providers && Declare.ProviderEnforced(p) ==> p.kind.Saml? || p.kind.Radius?
  {
    var accounts := FlatMap(app.providers, Says(app, strength, evidence));
    if accounts != [] {
      AccountsAreTheEnforced(app, strength, evidence, accounts[0]);
      assert accounts[0] in accounts;
    }
    forall p | p in app.providers && Declare.ProviderEnforced(p) && MethodOf(p.kind).Some? ensures accounts != [] {
      AccountsAreTheEnforced(app, strength, evidence, AccountOf(app, p, strength, evidence));
    }
  }

  lemma {:induction false} ServiceAtIs(placed: seq<Placed>, key: string)
    ensures ServiceAt(placed, key).Some? <==> exists p :: p in placed && p.Key() == key
    ensures ServiceAt(placed, key).Some? ==> exists p :: p in placed && p.Key() == key && p.svc == ServiceAt(placed, key).value
  {
    if placed != [] {
      SplitLast(placed);
      ServiceAtIs(placed[..|placed| - 1], key);
    }
  }

  /** The service is the only one that answers the address. */
  ghost predicate OnlyAnswers(placed: seq<Placed>, a: Address, key: string) {
    Reached(placed, a, key) && forall j :: Reached(placed, a, j) ==> j == key
  }

  ghost predicate RoundThe(parse: string -> Address, placed: seq<Placed>, key: string, app: Application, svc: Service, n: MatchNote,
                           p: Provider, r: CloudRoute) {
    && p in app.providers && p.kind.Proxy? && Declare.ProviderEnforced(p) && p.internalHost != ""
    && OnlyAnswers(placed, parse(p.internalHost), key) && r in svc.cloudflare && StraightIn(r)
    && n == Unpassed(r.hostname, r.origin.value.address.raw, p.outposts, app.slug)
  }

  /** A second door is noted exactly when an enforced proxy provider forwards to this service, and to no other, while a
      tunnel route of the service leads straight in. */
  lemma SecondDoorIsNoted(parse: string -> Address, placed: seq<Placed>, key: string, app: Application, svc: Service, n: MatchNote)
    requires ServiceAt(placed, key) == Some(svc)
    ensures n in PastOutposts(parse, IndexOf(placed), key, app) <==>
      exists p, r :: RoundThe(parse, placed, key, app, svc, n, p, r)
  {
    var ix := IndexOf(placed);
    FlatMapHas(app.providers, ProviderPast(parse, ix, key, app, svc), n);
    forall p | p in app.providers
      ensures n in ProviderPast(parse, ix, key, app, svc)(p) <==> exists r :: RoundThe(parse, placed, key, app, svc, n, p, r)
    {
      OneProviderPast(parse, placed, key, app, svc, n, p);
    }
  }

  lemma OneProviderPast(parse: string -> Address, placed: seq<Placed>, key: string, app: Application, svc: Service, n: MatchNote, p: Provider)
    requires p in app.providers
    ensures n in ProviderPast(parse, IndexOf(placed), key, app, svc)(p) <==> exists r :: RoundThe(parse, placed, key, app, svc, n, p, r)
  {
    GateIsTheOnlyOne(placed, parse(p.internalHost), key);
    FlatMapHas(svc.cloudflare, RoutePast(app, p), n);
    if r :| r in svc.cloudflare && n in RoutePast(app, p)(r) && ForwardsHere(parse, IndexOf(placed), key, p) {
      assert RoundThe(parse, placed, key, app, svc, n, p, r);
    }
    if r :| RoundThe(parse, placed, key, app, svc, n, p, r) {
      assert n in RoutePast(app, p)(r);
    }
  }
}
