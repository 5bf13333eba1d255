/** What the identity provider's records come to (labview/internal/authentik/read.go, match.go), field by field: what a
    listed application and its providers say, what an application hands a browser, the names it is tried by, and what the
    account of a provider reports. */
module AuthentikMeanings {
  import opened Options
  import opened Text
  import opened Lists
  import opened Ordering
  import opened Grouping
  import opened Vocabulary
  import opened Fleet
  import opened FleetIndex
  import opened AuthentikMatching
  import Read = AuthentikRead
  import Accounts = AuthentikAccounts
  import Laws = MatchingLaws

  // ---------------------------------------------------------------------------
  // Providers
  // ---------------------------------------------------------------------------

  /** The last provider record under a key. */
  ghost predicate LastOf(details: seq<Read.WireProvider>, pk: string, d: Read.WireProvider) {
    exists i :: 0 <= i < |details| && details[i] == d && d.pk == pk && pk != ""
      && forall j :: i < j < |details| ==> details[j].pk != pk
  }

  lemma {:induction false} ByKeyIsLast(details: seq<Read.WireProvider>, pk: string)
    ensures var m := Read.ByKey(details);
      && (pk in m <==> pk != "" && exists d :: d in details && d.pk == pk) && (pk in m ==> LastOf(details, pk, m[pk]))
  {
    if details != [] {
      SplitLast(details);
      var n := |details| - 1;
      ByKeyIsLast(details[..n], pk);
      if pk in Read.ByKey(details[..n]) && details[n].pk != pk {
        LastStays(details, pk, Read.ByKey(details[..n])[pk]);
      } else if pk in Read.ByKey(details) {
        assert details[n].pk == pk;
      }
    }
  }

  lemma LastStays(details: seq<Read.WireProvider>, pk: string, d: Read.WireProvider)
    requires details != [] && details[|details| - 1].pk != pk && LastOf(details[..|details| - 1], pk, d)
    ensures LastOf(details, pk, d)
  {
    var n := |details| - 1;
    var i :| 0 <= i < n && details[..n][i] == d && forall j :: i < j < n ==> details[..n][j].pk != pk;
    assert details[i] == d;
    assert forall j :: i < j < n ==> details[j] == details[..n][j];
  }

  /** The outposts that carry a provider: each once, the nameless left out, in the order of their names. */
  ghost predicate Carried(carriers: map<string, seq<string>>, pk: string, outposts: seq<string>) {
    && Distinct(outposts) && Sorted(StrLess, outposts) && forall o :: o in outposts <==> o != "" && o in Get(carriers, pk)
  }

  lemma {:induction false} NonEmptyAre(names: seq<string>, o: string)
    ensures o in Read.NonEmpty(names) <==> o in names && o != ""
  {
    if names != [] {
      SplitLast(names);
      NonEmptyAre(names[..|names| - 1], o);
    }
  }

  lemma DistinctAsBag<T(!new)>(a: seq<T>, b: seq<T>)
    requires multiset(a) == multiset(b) && Distinct(b)
    ensures Distinct(a)
  {
    forall i, j | 0 <= i < j < |a| ensures a[i] != a[j] {
      if a[i] == a[j] {
        TwiceCounts(a, i, j);
        OnceCounts(b, a[i]);
      }
    }
  }

  lemma TwiceCounts<T>(s: seq<T>, i: nat, j: nat)
    requires i < j < |s| && s[i] == s[j]
    ensures multiset(s)[s[i]] >= 2
  {
    assert s == s[..j] + s[j..];
    assert s[..j][i] == s[i] && s[i] in multiset(s[..j]);
    assert s[j..][0] == s[j] && s[j] in multiset(s[j..]);
  }

  lemma {:induction false} OnceCounts<T(!new)>(s: seq<T>, x: T)
    requires Distinct(s)
    ensures multiset(s)[x] <= 1
  {
    if s != [] {
      SplitFirst(s);
      OnceCounts(s[1..], x);
      assert multiset(s) == multiset{s[0]} + multiset(s[1..]);
      if x == s[0] {
        assert x !in multiset(s[1..]);
      }
    }
  }

  lemma OutpostsAreCarried(carriers: map<string, seq<string>>, pk: string)
    ensures Carried(carriers, pk, Read.OutpostNames(carriers, pk))
  {
    var names := Dedupe(Read.NonEmpty(Get(carriers, pk)));
    Read.StrictOrder();
    SortSorts(StrLess, names);
    DedupeKeeps(Read.NonEmpty(Get(carriers, pk)));
    DistinctAsBag(Sort(StrLess, names), names);
    forall o ensures o in Read.OutpostNames(carriers, pk) <==> o != "" && o in Get(carriers, pk) {
      NonEmptyAre(Get(carriers, pk), o);
    }
  }

  /** One provider of a listed application: the application's own view first, for its name and its kind, and the last
      record under its key for the rest. */
  ghost predicate Views(details: seq<Read.WireProvider>, carriers: map<string, seq<string>>, r: Read.WireRef, back: bool, p: Provider) {
    && p.backchannel == back && Carried(carriers, r.pk, p.outposts)
    && (r.name != "" ==> p.name == r.name) && (r.kind.Some? ==> p.kind == r.kind.value)
    && if forall d :: d in details && d.pk == r.pk ==> r.pk == "" then
         && (r.name == "" ==> p.name == "") && (r.kind.None? ==> p.kind.OtherProvider?)
         && p.internalHost == "" && p.externalHost == "" && !p.forwardDomain && p.redirects == []
       else
         exists d :: LastOf(details, r.pk, d) && Deepens(d, r, p)
  }

  ghost predicate Deepens(d: Read.WireProvider, r: Read.WireRef, p: Provider) {
    && (r.name == "" ==> p.name == d.name) && (r.kind.None? ==> p.kind == d.kind)
    && p.internalHost == d.internalHost && p.externalHost == d.externalHost && p.forwardDomain == d.forwardDomain
    && p.redirects == d.redirects
  }

  lemma RefViews(details: seq<Read.WireProvider>, carriers: map<string, seq<string>>, r: Read.WireRef, back: bool)
    ensures Views(details, carriers, r, back, Read.FromRef(r, back, Read.ByKey(details), carriers))
  {
    ByKeyIsLast(details, r.pk);
    OutpostsAreCarried(carriers, r.pk);
    if r.pk in Read.ByKey(details) {
      assert Deepens(Read.ByKey(details)[r.pk], r, Read.FromRef(r, back, Read.ByKey(details), carriers));
    }
  }

  lemma Appends<T>(s: seq<T>, x: T, i: nat)
    requires i <= |s|
    ensures |s + [x]| == |s| + 1 && (s + [x])[i] == if i < |s| then s[i] else x
  {
  }

  lemma {:induction false} BackAt(refs: seq<Read.WireRef>, byKey: map<string, Read.WireProvider>, carriers: map<string, seq<string>>, i: nat)
    requires i < |refs|
    ensures var out := Read.BackOf(refs, byKey, carriers); |out| == |refs| && out[i] == Read.FromRef(refs[i], true, byKey, carriers)
  {
    var n := |refs| - 1;
    if n > 0 {
      BackAt(refs[..n], byKey, carriers, if i < n then i else 0);
    }
    Appends(Read.BackOf(refs[..n], byKey, carriers), Read.FromRef(refs[n], true, byKey, carriers), i);
  }

  lemma BackCount(refs: seq<Read.WireRef>, byKey: map<string, Read.WireProvider>, carriers: map<string, seq<string>>)
    ensures |Read.BackOf(refs, byKey, carriers)| == |refs|
  {
    if refs != [] {
      BackAt(refs, byKey, carriers, 0);
    }
  }

  /** How many of an application's providers stand in front of it. */
  function Fronts(a: Read.WireApplication): nat { if a.front.Some? then 1 else 0 }

  /** What a listed application says: its own name, slug and group; its launch URL, or the one its metadata gives when
      that is blank; and the provider in front of it before those behind it. */
  lemma ListedMeans(a: Read.WireApplication, details: seq<Read.WireProvider>, carriers: map<string, seq<string>>)
    ensures var app := Read.ListedApp(a, Read.ByKey(details), carriers);
      && app.listed && app.name == a.name && app.slug == a.slug && app.group == a.group
      && app.launchURL == (if Trim(a.launchURL) == "" then Trim(a.metaLaunchURL) else Trim(a.launchURL))
      && |app.providers| == Fronts(a) + |a.back|
      && (a.front.Some? ==> Views(details, carriers, a.front.value, false, app.providers[0]))
  {
    BackCount(a.back, Read.ByKey(details), carriers);
    if a.front.Some? {
      RefViews(details, carriers, a.front.value, false);
    }
  }

  /** And those behind it stand in the order the application gives them. */
  lemma BackMeans(a: Read.WireApplication, details: seq<Read.WireProvider>, carriers: map<string, seq<string>>, i: nat)
    requires i < |a.back|
    ensures var ps := Read.ListedApp(a, Read.ByKey(details), carriers).providers;
      |ps| == Fronts(a) + |a.back| && Views(details, carriers, a.back[i], true, ps[Fronts(a) + i])
  {
    BackAt(a.back, Read.ByKey(details), carriers, i);
    RefViews(details, carriers, a.back[i], true);
  }

  /** What a provider's own record says when its application is rebuilt from it: everything, and that it stands behind
      the application when no application in front of it is named. */
  lemma RecordMeans(d: Read.WireProvider, carriers: map<string, seq<string>>)
    ensures var p := Read.FromDetail(d, carriers);
      && p.name == d.name && p.kind == d.kind && p.internalHost == d.internalHost && p.externalHost == d.externalHost
      && p.forwardDomain == d.forwardDomain && p.redirects == d.redirects && Carried(carriers, d.pk, p.outposts)
      && (p.backchannel <==> Trim(d.slug) == "")
      && Read.SlugOf(d).0 == (if p.backchannel then Trim(d.backSlug) else Trim(d.slug))
      && Read.Thin(d).name == (var own := Trim(if p.backchannel then d.backApplication else d.application);
                               if own == "" then Read.SlugOf(d).0 else own)
  {
    OutpostsAreCarried(carriers, d.pk);
  }

  // ---------------------------------------------------------------------------
  // What an application hands out
  // ---------------------------------------------------------------------------

  ghost predicate SplitsAt(s: string, a: string, mark: string, b: string) { s == a + mark + b }

  ghost predicate Marked(s: string, mark: string) { exists a, b :: SplitsAt(s, a, mark, b) }

  lemma StartsWith(s: string, sub: string, b: string)
    requires SplitsAt(s, "", sub, b)
    ensures |sub| <= |s| && s[..|sub|] == sub
  {
  }

  lemma {:induction false} ContainsIs(s: string, sub: string)
    ensures Contains(s, sub) <==> Marked(s, sub)
  {
    if |sub| <= |s| && s[..|sub|] == sub {
      assert SplitsAt(s, "", sub, s[|sub|..]);
    } else if s != "" {
      ContainsIs(s[1..], sub);
      if a, b :| SplitsAt(s[1..], a, sub, b) {
        assert SplitsAt(s, [s[0]] + a, sub, b);
      }
      if a, b :| SplitsAt(s, a, sub, b) {
        if a == "" {
          StartsWith(s, sub, b);
        } else {
          assert SplitsAt(s[1..], a[1..], sub, b);
        }
      }
    }
  }

  /** The URL is written for each user apart. */
  ghost predicate PerUser(url: string) { Marked(url, "%(") || Marked(url, "{{") || Marked(url, "${") }

  lemma TemplateMeans(url: string)
    ensures IsTemplate(url) <==> PerUser(url)
  {
    ContainsIs(url, "%(");
    ContainsIs(url, "{{");
    ContainsIs(url, "${");
  }

  ghost predicate Trims(raw: string, u: string) { Trim(raw) == u && u != "" }

  lemma {:induction false} RedirectsAdd(urls: seq<string>, redirects: seq<string>, u: string)
    ensures u in FromRedirects(urls, redirects) <==> u in urls || exists r :: r in redirects && Trims(r, u)
    ensures urls <= FromRedirects(urls, redirects)
  {
    if redirects != [] {
      SplitLast(redirects);
      var last, before := redirects[|redirects| - 1], redirects[..|redirects| - 1];
      RedirectsAdd(urls, before, u);
      assert u in FromRedirects(urls, redirects) <==> u in FromRedirects(urls, before) || Trims(last, u);
      assert (exists r :: r in redirects && Trims(r, u)) <==> Trims(last, u) || exists r :: r in before && Trims(r, u);
    }
  }

  /** The provider hands it out: its external host, unless the host is one domain for all, or a redirect. */
  ghost predicate Offers(p: Provider, u: string) {
    (Trims(p.externalHost, u) && !p.forwardDomain) || exists r :: r in p.redirects && Trims(r, u)
  }

  ghost predicate Shares(p: Provider) { Trim(p.externalHost) != "" && p.forwardDomain }

  lemma ProviderAdds(h: HandedOut, p: Provider, u: string)
    ensures u in FromProvider(h, p).urls <==> u in h.urls || Offers(p, u)
    ensures FromProvider(h, p).declined == h.declined + if Shares(p) then 1 else 0
  {
    var host := Trim(p.externalHost);
    var urls := if host == "" || p.forwardDomain then h.urls else AppendOnce(h.urls, host);
    RedirectsAdd(urls, p.redirects, u);
  }

  lemma {:induction false} ProvidersAdd(h: HandedOut, ps: seq<Provider>, u: string)
    ensures u in FromProviders(h, ps).urls <==> u in h.urls || exists p :: p in ps && Offers(p, u)
    ensures FromProviders(h, ps).declined == h.declined <==> forall p :: p in ps ==> !Shares(p)
    ensures FromProviders(h, ps).declined >= h.declined
  {
    if ps != [] {
      SplitLast(ps);
      ProvidersAdd(h, ps[..|ps| - 1], u);
      ProviderAdds(FromProviders(h, ps[..|ps| - 1]), ps[|ps| - 1], u);
    }
  }

  /** What an application hands a browser: its launch URL, unless that is written per user, and what its providers offer;
      and something was declined exactly when a launch URL is per user or an external host is one domain for all. */
  lemma HandedOutMeans(app: Application, u: string)
    ensures u in HandedOutURLs(app).urls <==>
      (Trims(app.launchURL, u) && !PerUser(u)) || exists p :: p in app.providers && Offers(p, u)
    ensures HandedOutURLs(app).declined > 0 <==>
      (Trim(app.launchURL) != "" && PerUser(Trim(app.launchURL))) || exists p :: p in app.providers && Shares(p)
  {
    var raw := Trim(app.launchURL);
    TemplateMeans(raw);
    ProvidersAdd(if raw == "" then HandedOut([], 0) else if IsTemplate(raw) then HandedOut([], 1) else HandedOut([raw], 0),
                 app.providers, u);
  }

  /** The addresses the first rule asks about are those the proxy providers forward to, and no others. */
  lemma {:induction false} ForwardedAre(ps: seq<Provider>, h: string)
    ensures h in InternalHosts(ps) <==> exists p :: p in ps && p.kind.Proxy? && p.internalHost == h && Trim(h) != ""
  {
    if ps != [] {
      SplitLast(ps);
      ForwardedAre(ps[..|ps| - 1], h);
    }
  }

  /** The hostnames the third rule asks about are the hosts of those URLs, addresses left out. */
  lemma {:induction false} HostnamesAre(o: Outside, urls: seq<string>, h: string)
    ensures h in HostnamesIn(o, urls) <==> exists u :: u in urls && o.parse(u).host == h && h != "" && !o.parse(u).isIP
  {
    if urls != [] {
      SplitLast(urls);
      HostnamesAre(o, urls[..|urls| - 1], h);
    }
  }

  /** The second rule says it was blocked exactly when it found nobody and something stood in its way: everything handed
      out was declined, or a host in a URL is no bare name. */
  lemma BlockedMeans(o: Outside, ix: Index, app: Application)
    ensures var urls := HandedOutURLs(app).urls;
      RuleURLHost(o, ix, app).Blocked? <==>
        || (urls == [] && HandedOutURLs(app).declined > 0)
        || ((forall k :: !Laws.Offered(urls, ByBareNameOf(o, ix), k)) && exists u :: u in urls && o.parse(u).host != "" && !o.parse(u).isBareName)
  {
    var urls := HandedOutURLs(app).urls;
    var found := Gathered(urls, ByBareNameOf(o, ix));
    forall k ensures k in found <==> Laws.Offered(urls, ByBareNameOf(o, ix), k) { Laws.GatheredHas(urls, ByBareNameOf(o, ix), k); }
    if found != [] {
      assert found[0] in found;
    }
  }

  // ---------------------------------------------------------------------------
  // The names it is tried by
  // ---------------------------------------------------------------------------

  /** The slug, the name, then each provider's name. */
  ghost predicate NameAt(app: Application, i: nat, name: string)
    requires i < |app.providers| + 2
  {
    name == if i == 0 then app.slug else if i == 1 then app.name else app.providers[i - 2].name
  }

  /** A name in its form: as written, tightened, or tightened without mechanism words. */
  ghost predicate TrialAt(o: Outside, app: Application, form: nat, i: nat, t: Trial)
    requires i < |app.providers| + 2 && form < 3
  {
    && NameAt(app, i, t.raw) && (t.tight <==> form > 0)
    && t.key == if form == 0 then Lower(Trim(t.raw)) else if form == 1 then Tighten(t.raw) else o.strip(t.raw)
  }

  lemma Stacked<T>(a: seq<T>, b: seq<T>, c: seq<T>, n: nat, i: nat)
    requires |a| == |b| == |c| == n && i < n
    ensures var all := a + b + c; |all| == n + n + n && all[i] == a[i] && all[n + i] == b[i] && all[n + n + i] == c[i]
  {
  }

  /** The trials of the fourth rule: every name as written before any tightened, every one tightened before any stripped. */
  lemma TrialsAre(o: Outside, app: Application, i: nat)
    requires i < |app.providers| + 2
    ensures var n, ts := |app.providers| + 2, Trials(o, app);
      && |ts| == n + n + n && TrialAt(o, app, 0, i, ts[i]) && TrialAt(o, app, 1, i, ts[n + i]) && TrialAt(o, app, 2, i, ts[n + n + i])
  {
    var names := CandidateNames(app);
    assert NameAt(app, i, names[i]);
    Stacked(TrialsIn(names, Fold, false), TrialsIn(names, Tighten, true), TrialsIn(names, o.strip, true), |app.providers| + 2, i);
  }

  /** Tightening keeps the letters and digits of the lower-cased name, in order, and nothing else. */
  lemma {:induction false} TightIs(s: string)
    ensures OnlyNameChars(s) == Filter(s, c => 'a' <= c <= 'z' || '0' <= c <= '9')
  {
    var p := c => 'a' <= c <= 'z' || '0' <= c <= '9';
    if s != "" {
      var n := |s| - 1;
      TightIs(s[..n]);
      OnlyAppend(s[..n], s[n..]);
      assert s == s[..n] + s[n..] && s[n..] == [s[n]];
      assert OnlyNameChars(s[n..]) == if p(s[n]) then [s[n]] else "";
    }
  }

  lemma {:induction false} OnlyAppend(a: string, b: string)
    ensures OnlyNameChars(a + b) == OnlyNameChars(a) + OnlyNameChars(b)
  {
    if a == "" {
      assert a + b == b;
    } else {
      OnlyAppend(a[1..], b);
      assert (a + b)[1..] == a[1..] + b && (a + b)[0] == a[0];
      JoinLeft(if IsNameChar(a[0]) then [a[0]] else "", OnlyNameChars(a[1..]), OnlyNameChars(b));
    }
  }

  /** A service goes by its stack's name, its own and its container's. */
  lemma CalledMeans(p: Placed, name: string)
    ensures Called(p, name) <==>
      name != "" && (Fold(p.stackId) == name || Fold(p.svc.name) == name || Fold(p.svc.containerName) == name)
    ensures CalledTight(p, name) <==>
      name != "" && (Tighten(Fold(p.stackId)) == name || Tighten(Fold(p.svc.name)) == name || Tighten(Fold(p.svc.containerName)) == name)
  {
    var names := AuthentikMatching.StackNames(p);
    assert names[0] in names && names[1] in names && names[2] in names;
    assert forall n :: n in names <==> n == p.stackId || n == p.svc.name || n == p.svc.containerName;
  }

  // ---------------------------------------------------------------------------
  // The account of a provider
  // ---------------------------------------------------------------------------

  /** The account an enforced provider gives: the method of its kind, confirmed unless the application was tied by name
      alone, at the address it forwards to, live, on the evidence of the match and of the outposts that carry it. */
  lemma AccountMeans(app: Application, p: Provider, strength: Strength, evidence: string)
    requires Accounts.MethodOf(p.kind).Some?
    ensures var a := Accounts.AccountOf(app, p, strength, evidence);
      && a.live && a.address == p.internalHost
      && (a.auth.AuthentikForwardAuth? <==> p.kind.Proxy?) && (a.auth.AuthentikOAuth? <==> p.kind.OAuth2?)
      && (a.auth.AuthentikLDAP? <==> p.kind.LdapProvider?)
      && (a.confidence.Confirmed? <==> !strength.NameMatch?) && (a.confidence.Observed? <==> strength.NameMatch?)
      && a.evidence == if p.outposts == [] then [Other(evidence)] else [Other(evidence), Line.Carried(p.outposts)]
  {
  }

  /** No other kind has a method: SAML, RADIUS and the unrecognised. */
  lemma MethodsMean(kind: ProviderKind)
    ensures Accounts.MethodOf(kind).None? <==> kind.Saml? || kind.Radius? || kind.OtherProvider?
  {
  }
}
