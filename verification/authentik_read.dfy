/** Assembling the applications the identity provider lists with those only its providers know of
    (labview/internal/authentik/read.go). */
module AuthentikRead {
  import opened Options
  import opened Text
  import opened Lists
  import opened Ordering
  import opened Grouping
  import opened Fleet

  /** An application's view of one of its providers; `kind` is None when the view has none. `pk` is trimmed. */
  datatype WireRef = WireRef(pk: string, name: string, kind: Option<ProviderKind>)

  /** `front` is the provider it is reached through, `back` the ones behind it. */
  datatype WireApplication = WireApplication(
    name: string, slug: string, group: string, launchURL: string, metaLaunchURL: string, front: Option<WireRef>, back: seq<WireRef>)

  /** One provider's own record, with the application it is assigned to, in front of it or behind. */
  datatype WireProvider = WireProvider(
    pk: string, name: string, kind: ProviderKind, forwardDomain: bool, internalHost: string, externalHost: string,
    redirects: seq<string>, slug: string, application: string, backSlug: string, backApplication: string)

  /** The application a provider is assigned to, and whether from behind. */
  function SlugOf(d: WireProvider): (string, bool) {
    if Trim(d.slug) != "" then (Trim(d.slug), false) else (Trim(d.backSlug), true)
  }

  function NonEmpty(names: seq<string>): seq<string> {
    if names == [] then [] else
      var n := names[|names| - 1];
      NonEmpty(names[..|names| - 1]) + (if n == "" then [] else [n])
  }

  /** `sortedUnique`. */
  function OutpostNames(carriers: map<string, seq<string>>, pk: string): seq<string> {
    Sort(StrLess, Dedupe(NonEmpty(Get(carriers, pk))))
  }

  function FromDetail(d: WireProvider, carriers: map<string, seq<string>>): Provider {
    Provider(d.name, d.kind, d.internalHost, d.externalHost, d.forwardDomain, d.redirects, SlugOf(d).1, OutpostNames(carriers, d.pk))
  }

  function FromRef(r: WireRef, back: bool, details: map<string, WireProvider>, carriers: map<string, seq<string>>): Provider {
    if r.pk in details then
      var d := details[r.pk];
      FromDetail(d, carriers).(name := if r.name == "" then d.name else r.name, kind := r.kind.GetOr(d.kind),
                               backchannel := back, outposts := OutpostNames(carriers, r.pk))
    else Provider(r.name, r.kind.GetOr(OtherProvider), "", "", false, [], back, OutpostNames(carriers, r.pk))
  }

  /** The last record under each key; one without a key is passed over. */
  function ByKey(details: seq<WireProvider>): map<string, WireProvider> {
    if details == [] then map[] else
      var d := details[|details| - 1];
      if d.pk == "" then ByKey(details[..|details| - 1]) else ByKey(details[..|details| - 1])[d.pk := d]
  }

  function LaunchURL(a: WireApplication): string {
    if Trim(a.launchURL) != "" then Trim(a.launchURL) else Trim(a.metaLaunchURL)
  }

  function BackOf(refs: seq<WireRef>, byKey: map<string, WireProvider>, carriers: map<string, seq<string>>): seq<Provider> {
    if refs == [] then []
    else BackOf(refs[..|refs| - 1], byKey, carriers) + [FromRef(refs[|refs| - 1], true, byKey, carriers)]
  }

  function ProvidersOf(a: WireApplication, byKey: map<string, WireProvider>, carriers: map<string, seq<string>>): seq<Provider> {
    (if a.front.Some? then [FromRef(a.front.value, false, byKey, carriers)] else []) + BackOf(a.back, byKey, carriers)
  }

  function ListedApp(a: WireApplication, byKey: map<string, WireProvider>, carriers: map<string, seq<string>>): Application {
    Application(a.name, a.slug, a.group, LaunchURL(a), ProvidersOf(a, byKey, carriers), true)
  }

  predicate BySlug(a: WireApplication, b: WireApplication) { StrLess(a.slug, b.slug) }

  function Slugs(apps: seq<WireApplication>): set<string> { set a | a in apps :: a.slug }

  // ---------------------------------------------------------------------------
  // Pass two, on values
  // ---------------------------------------------------------------------------

  predicate Withheld(listed: set<string>, d: WireProvider) { SlugOf(d).0 != "" && SlugOf(d).0 !in listed }

  /** A thin record: no launch URL, no group, and only the providers that name it. */
  function Thin(d: WireProvider): Application {
    var (slug, back) := SlugOf(d);
    var name := Trim(if back then d.backApplication else d.application);
    Application(if name == "" then slug else name, slug, "", "", [], false)
  }

  /** What is rebuilt, and the slugs in the order they were first met. */
  datatype Rebuilt = Rebuilt(apps: map<string, Application>, slugs: seq<string>)

  function Rebuild(r: Rebuilt, listed: set<string>, carriers: map<string, seq<string>>, d: WireProvider): Rebuilt {
    if !Withheld(listed, d) then r
    else
      var slug := SlugOf(d).0;
      var r' := if slug in r.apps then r else Rebuilt(r.apps[slug := Thin(d)], r.slugs + [slug]);
      var app := r'.apps[slug];
      r'.(apps := r'.apps[slug := app.(providers := app.providers + [FromDetail(d, carriers)])])
  }

  function RebuildAll(listed: set<string>, carriers: map<string, seq<string>>, details: seq<WireProvider>): Rebuilt {
    if details == [] then Rebuilt(map[], [])
    else Rebuild(RebuildAll(listed, carriers, details[..|details| - 1]), listed, carriers, details[|details| - 1])
  }

  /** The provider records of one slug, in order. */
  function RecordsOf(slug: string, carriers: map<string, seq<string>>, details: seq<WireProvider>): seq<Provider> {
    if details == [] then [] else
      var d := details[|details| - 1];
      RecordsOf(slug, carriers, details[..|details| - 1]) + (if SlugOf(d).0 == slug then [FromDetail(d, carriers)] else [])
  }

  /** The name the first of those records gives the application. */
  function FirstName(slug: string, details: seq<WireProvider>): string {
    if details == [] then "" else
      var before, d := FirstName(slug, details[..|details| - 1]), details[|details| - 1];
      if before == "" && SlugOf(d).0 == slug then Thin(d).name else before
  }

  ghost predicate Named(listed: set<string>, details: seq<WireProvider>, slug: string) {
    exists d :: d in details && Withheld(listed, d) && SlugOf(d).0 == slug
  }

  /** The slugs listed are the keys, each once; a slug is rebuilt exactly when some provider names it and the list did
      not; and its record holds exactly that slug's provider records, in order. */
  ghost predicate RebuiltRight(listed: set<string>, carriers: map<string, seq<string>>, details: seq<WireProvider>, r: Rebuilt) {
    ListsKeys(r.slugs, r.apps) && forall slug :: SlugRight(listed, carriers, details, r, slug)
  }

  ghost predicate SlugRight(listed: set<string>, carriers: map<string, seq<string>>, details: seq<WireProvider>, r: Rebuilt, slug: string) {
    && (slug in r.apps <==> Named(listed, details, slug))
    && (slug in r.apps ==>
          && IsRecord(r.apps[slug], slug, RecordsOf(slug, carriers, details))
          && r.apps[slug].name == FirstName(slug, details) && r.apps[slug].name != "")
  }

  predicate IsRecord(app: Application, slug: string, records: seq<Provider>) {
    app.slug == slug && !app.listed && app.group == "" && app.launchURL == "" && app.providers == records
  }

  lemma NoRecords(listed: set<string>, carriers: map<string, seq<string>>, details: seq<WireProvider>, slug: string)
    requires slug != "" && slug !in listed && !Named(listed, details, slug)
    ensures RecordsOf(slug, carriers, details) == [] && FirstName(slug, details) == ""
  {
    if details != [] {
      SplitLast(details);
      var before, d := details[..|details| - 1], details[|details| - 1];
      assert forall x :: x in before ==> x in details;
      NoRecords(listed, carriers, before, slug);
      assert d in details;
    }
  }

  lemma NamedAfter(listed: set<string>, details: seq<WireProvider>, d: WireProvider, slug: string)
    ensures Named(listed, details + [d], slug) <==> Named(listed, details, slug) || (Withheld(listed, d) && SlugOf(d).0 == slug)
  {
    assert forall x :: x in details + [d] <==> x in details || x == d;
  }

  lemma RecordsAfter(slug: string, carriers: map<string, seq<string>>, details: seq<WireProvider>, d: WireProvider)
    ensures RecordsOf(slug, carriers, details + [d]) ==
      RecordsOf(slug, carriers, details) + (if SlugOf(d).0 == slug then [FromDetail(d, carriers)] else [])
    ensures FirstName(slug, details + [d]) ==
      if FirstName(slug, details) == "" && SlugOf(d).0 == slug then Thin(d).name else FirstName(slug, details)
  {
    assert (details + [d])[..|details|] == details;
  }

  lemma RebuildKeys(listed: set<string>, carriers: map<string, seq<string>>, r: Rebuilt, d: WireProvider)
    requires ListsKeys(r.slugs, r.apps)
    ensures var r' := Rebuild(r, listed, carriers, d); ListsKeys(r'.slugs, r'.apps)
  {
    if Withheld(listed, d) {
      var slug := SlugOf(d).0;
      if slug in r.apps {
        ListsAfterReplace(r.slugs, r.apps, slug, r.apps[slug].(providers := r.apps[slug].providers + [FromDetail(d, carriers)]));
      } else {
        var app := Thin(d);
        ListsAfterAppend(r.slugs, r.apps, slug, app);
        ListsAfterReplace(r.slugs + [slug], r.apps[slug := app], slug, app.(providers := app.providers + [FromDetail(d, carriers)]));
      }
    }
  }

  predicate Touches(listed: set<string>, d: WireProvider, slug: string) { Withheld(listed, d) && SlugOf(d).0 == slug }

  /** One record changes one slug. */
  lemma RebuildAt(listed: set<string>, carriers: map<string, seq<string>>, r: Rebuilt, d: WireProvider, slug: string)
    ensures var r' := Rebuild(r, listed, carriers, d);
      if Touches(listed, d, slug) then
        var was := if slug in r.apps then r.apps[slug] else Thin(d);
        slug in r'.apps && r'.apps[slug] == was.(providers := was.providers + [FromDetail(d, carriers)])
      else (slug in r'.apps <==> slug in r.apps) && (slug in r.apps ==> r'.apps[slug] == r.apps[slug])
  {
  }

  lemma ThinIs(d: WireProvider)
    requires SlugOf(d).0 != ""
    ensures Thin(d).slug == SlugOf(d).0 && Thin(d).name != "" && Thin(d).providers == [] && !Thin(d).listed && Thin(d).group == "" && Thin(d).launchURL == ""
  {
  }

  lemma RebuildKeepsSlug(listed: set<string>, carriers: map<string, seq<string>>, details: seq<WireProvider>, r: Rebuilt, d: WireProvider,
                         slug: string)
    requires SlugRight(listed, carriers, details, r, slug)
    ensures SlugRight(listed, carriers, details + [d], Rebuild(r, listed, carriers, d), slug)
  {
    RebuildAt(listed, carriers, r, d, slug);
    NamedAfter(listed, details, d, slug);
    RecordsAfter(slug, carriers, details, d);
    if Touches(listed, d, slug) {
      ThinIs(d);
      if !Named(listed, details, slug) {
        NoRecords(listed, carriers, details, slug);
      }
    }
  }

  lemma {:induction false} RebuildsSlug(listed: set<string>, carriers: map<string, seq<string>>, details: seq<WireProvider>, slug: string)
    ensures SlugRight(listed, carriers, details, RebuildAll(listed, carriers, details), slug)
  {
    if details != [] {
      var n := |details| - 1;
      RebuildsSlug(listed, carriers, details[..n], slug);
      RebuildKeepsSlug(listed, carriers, details[..n], RebuildAll(listed, carriers, details[..n]), details[n], slug);
      assert details == details[..n] + [details[n]];
    }
  }

  lemma {:induction false} RebuildsKeys(listed: set<string>, carriers: map<string, seq<string>>, details: seq<WireProvider>)
    ensures var r := RebuildAll(listed, carriers, details); ListsKeys(r.slugs, r.apps)
  {
    if details != [] {
      var n := |details| - 1;
      RebuildsKeys(listed, carriers, details[..n]);
      RebuildKeys(listed, carriers, RebuildAll(listed, carriers, details[..n]), details[n]);
    }
  }

  lemma RebuildsRight(listed: set<string>, carriers: map<string, seq<string>>, details: seq<WireProvider>)
    ensures RebuiltRight(listed, carriers, details, RebuildAll(listed, carriers, details))
  {
    RebuildsKeys(listed, carriers, details);
    forall slug ensures SlugRight(listed, carriers, details, RebuildAll(listed, carriers, details), slug) {
      RebuildsSlug(listed, carriers, details, slug);
    }
  }

  // ---------------------------------------------------------------------------
  // The two passes
  // ---------------------------------------------------------------------------

  method Index(details: seq<WireProvider>) returns (byKey: map<string, WireProvider>)
    ensures byKey == ByKey(details)
  {
    byKey := map[];
    var i := 0;
    while i < |details|
      invariant 0 <= i <= |details| && byKey == ByKey(details[..i])
    {
      assert details[..i + 1][..i] == details[..i];
      if details[i].pk != "" {
        byKey := byKey[details[i].pk := details[i]];
      }
      i := i + 1;
    }
    assert details[..i] == details;
  }

  /** Pass one, over the list in slug order. */
  method PassOne(sorted: seq<WireApplication>, byKey: map<string, WireProvider>, carriers: map<string, seq<string>>)
    returns (out: seq<Application>, listed: set<string>)
    ensures |out| == |sorted| && forall i :: 0 <= i < |sorted| ==> out[i] == ListedApp(sorted[i], byKey, carriers)
    ensures listed == Slugs(sorted)
  {
    out, listed := [], {};
    var i := 0;
    while i < |sorted|
      invariant 0 <= i <= |sorted| && listed == Slugs(sorted[..i]) && ListedUpTo(sorted, byKey, carriers, out, i)
    {
      OneMoreSlug(sorted, i);
      OneMoreListed(sorted, byKey, carriers, out, i);
      listed := listed + {sorted[i].slug};
      out := out + [ListedApp(sorted[i], byKey, carriers)];
      i := i + 1;
    }
    TakeAll(sorted);
  }

  ghost predicate ListedUpTo(sorted: seq<WireApplication>, byKey: map<string, WireProvider>, carriers: map<string, seq<string>>,
                             out: seq<Application>, n: nat)
    requires n <= |sorted|
  {
    |out| == n && forall i :: 0 <= i < n ==> out[i] == ListedApp(sorted[i], byKey, carriers)
  }

  lemma OneMoreListed(sorted: seq<WireApplication>, byKey: map<string, WireProvider>, carriers: map<string, seq<string>>,
                      out: seq<Application>, n: nat)
    requires n < |sorted| && ListedUpTo(sorted, byKey, carriers, out, n)
    ensures ListedUpTo(sorted, byKey, carriers, out + [ListedApp(sorted[n], byKey, carriers)], n + 1)
  {
  }

  lemma OneMoreSlug(sorted: seq<WireApplication>, i: nat)
    requires i < |sorted|
    ensures Slugs(sorted[..i + 1]) == Slugs(sorted[..i]) + {sorted[i].slug}
  {
    TakeMore(sorted, i);
    assert forall a :: a in sorted[..i + 1] <==> a in sorted[..i] || a == sorted[i];
  }

  /** Pass two, over the provider records. */
  method PassTwo(listed: set<string>, details: seq<WireProvider>, carriers: map<string, seq<string>>) returns (r: Rebuilt)
    ensures r == RebuildAll(listed, carriers, details)
  {
    r := Rebuilt(map[], []);
    var i := 0;
    while i < |details|
      invariant 0 <= i <= |details| && r == RebuildAll(listed, carriers, details[..i])
    {
      assert details[..i + 1][..i] == details[..i];
      var (slug, back) := SlugOf(details[i]);
      if slug != "" && slug !in listed {
        if slug !in r.apps {
          r := Rebuilt(r.apps[slug := Thin(details[i])], r.slugs + [slug]);
        }
        var app := r.apps[slug];
        r := r.(apps := r.apps[slug := app.(providers := app.providers + [FromDetail(details[i], carriers)])]);
      }
      i := i + 1;
    }
    assert details[..i] == details;
  }

  /** The rebuilt records, in the order of `slugs`. */
  method AddRebuilt(one: seq<Application>, r: Rebuilt, slugs: seq<string>) returns (out: seq<Application>)
    requires forall x :: x in slugs ==> x in r.apps
    ensures |out| == |one| + |slugs| && out[..|one|] == one
    ensures forall j :: 0 <= j < |slugs| ==> out[|one|..][j] == r.apps[slugs[j]]
  {
    out := one;
    var i := 0;
    while i < |slugs|
      invariant 0 <= i <= |slugs| && |out| == |one| + i && out[..|one|] == one
      invariant forall j :: 0 <= j < i ==> out[|one| + j] == r.apps[slugs[j]]
    {
      out := out + [r.apps[slugs[i]]];
      i := i + 1;
    }
  }

  method Assemble(apps: seq<WireApplication>, details: seq<WireProvider>, carriers: map<string, seq<string>>)
    returns (out: seq<Application>, recovered: nat)
    ensures Assembled(apps, details, carriers, out, recovered)
  {
    var one, listed := FirstHalf(apps, details, carriers);
    out, recovered := SecondHalf(one, listed, details, carriers);
    SortedApps(apps);
    assert ListedFirst(Sort(BySlug, apps), details, carriers, out) by {
      assert forall i :: 0 <= i < |one| ==> out[i] == out[..|one|][i];
    }
  }

  method FirstHalf(apps: seq<WireApplication>, details: seq<WireProvider>, carriers: map<string, seq<string>>)
    returns (one: seq<Application>, listed: set<string>)
    ensures |one| == |apps| == |Sort(BySlug, apps)| && ListedFirst(Sort(BySlug, apps), details, carriers, one) && listed == Slugs(apps)
  {
    var byKey := Index(details);
    SortedApps(apps);
    one, listed := PassOne(Sort(BySlug, apps), byKey, carriers);
  }

  method SecondHalf(one: seq<Application>, listed: set<string>, details: seq<WireProvider>, carriers: map<string, seq<string>>)
    returns (out: seq<Application>, recovered: nat)
    ensures |out| == |one| + recovered && out[..|one|] == one && RebuiltTail(out[|one|..], listed, carriers, details)
  {
    var r := PassTwo(listed, details, carriers);
    RebuildsRight(listed, carriers, details);
    SlugsSort(r.slugs);
    var slugs := Sort(StrLess, r.slugs);
    out := AddRebuilt(one, r, slugs);
    recovered := |r.slugs|;
    TailIs(r, slugs, out[|one|..], listed, carriers, details);
  }

  lemma SortedApps(apps: seq<WireApplication>)
    ensures var s := Sort(BySlug, apps); multiset(s) == multiset(apps) && Sorted(BySlug, s) && |s| == |apps| && Slugs(s) == Slugs(apps)
  {
    SlugOrder();
    SortSorts(BySlug, apps);
  }

  lemma StrictOrder()
    ensures StrictWeak(StrLess)
  {
    forall x, y, z
      ensures !StrLess(x, x) && (StrLess(x, y) && StrLess(y, z) ==> StrLess(x, z))
      ensures !StrLess(x, y) && !StrLess(y, z) ==> !StrLess(x, z)
    {
      StrLessTotal(x, x);
      StrLessTotal(x, y);
      StrLessTotal(y, z);
      StrLessTotal(x, z);
      if StrLess(x, y) && StrLess(y, z) {
        StrLessTransitive(x, y, z);
      }
      if StrLess(z, y) && StrLess(y, x) {
        StrLessTransitive(z, y, x);
      }
    }
  }

  lemma SlugOrder()
    ensures StrictWeak(BySlug)
  {
    StrictOrder();
    forall x, y, z: WireApplication
      ensures !BySlug(x, x) && (BySlug(x, y) && BySlug(y, z) ==> BySlug(x, z))
      ensures !BySlug(x, y) && !BySlug(y, z) ==> !BySlug(x, z)
    {
    }
  }

  lemma SlugsSort(slugs: seq<string>)
    requires Distinct(slugs)
    ensures var s := Sort(StrLess, slugs);
      |s| == |slugs| && (forall x :: x in s <==> x in slugs) && forall i, j :: 0 <= i < j < |s| ==> StrLess(s[i], s[j])
  {
    StrictOrder();
    SortSorts(StrLess, slugs);
    var s := Sort(StrLess, slugs);
    SameCountDistinct(slugs, s);
    forall i, j | 0 <= i < j < |s| ensures StrLess(s[i], s[j]) {
      StrLessTotal(s[i], s[j]);
    }
  }

  lemma SameCountDistinct<T(!new)>(a: seq<T>, b: seq<T>)
    requires Distinct(a) && multiset(a) == multiset(b)
    ensures Distinct(b)
  {
    forall i, j | 0 <= i < j < |b| ensures b[i] != b[j] {
      AtMostOnce(a, b[i]);
      TwiceCounts(b, i, j);
    }
  }

  lemma {:induction false} AtMostOnce<T(!new)>(a: seq<T>, x: T)
    requires Distinct(a)
    ensures multiset(a)[x] <= 1
  {
    if a != [] {
      SplitFirst(a);
      AtMostOnce(a[1..], x);
      assert a[0] == x ==> x !in multiset(a[1..]);
    }
  }

  lemma TwiceCounts<T(!new)>(b: seq<T>, i: nat, j: nat)
    requires i < j < |b|
    ensures b[i] == b[j] ==> multiset(b)[b[i]] >= 2
  {
    assert b == b[..j] + [b[j]] + b[j + 1..];
    assert b[i] in b[..j];
    assert b[i] in multiset(b[..j]);
  }

  // ---------------------------------------------------------------------------
  // What assembling keeps
  // ---------------------------------------------------------------------------

  /** The rebuilt tail: in strictly ascending slug order, one record for each slug that some provider names and the
      list did not return, holding exactly that slug's provider records in order. */
  ghost predicate RebuiltTail(tail: seq<Application>, listed: set<string>, carriers: map<string, seq<string>>, details: seq<WireProvider>) {
    && (forall i, j :: 0 <= i < j < |tail| ==> StrLess(tail[i].slug, tail[j].slug))
    && (forall app :: app in tail ==>
          && Named(listed, details, app.slug) && app.slug !in listed && app.name == FirstName(app.slug, details)
          && IsRecord(app, app.slug, RecordsOf(app.slug, carriers, details)))
    && forall slug :: Named(listed, details, slug) ==> exists app :: app in tail && app.slug == slug
  }

  lemma TailIs(r: Rebuilt, slugs: seq<string>, tail: seq<Application>, listed: set<string>, carriers: map<string, seq<string>>,
               details: seq<WireProvider>)
    requires RebuiltRight(listed, carriers, details, r)
    requires |tail| == |slugs| && forall i :: 0 <= i < |slugs| ==> slugs[i] in r.apps && tail[i] == r.apps[slugs[i]]
    requires (forall x :: x in slugs <==> x in r.slugs) && forall i, j :: 0 <= i < j < |slugs| ==> StrLess(slugs[i], slugs[j])
    ensures RebuiltTail(tail, listed, carriers, details)
  {
    forall i | 0 <= i < |tail|
      ensures tail[i].slug == slugs[i] && Named(listed, details, slugs[i])
      ensures IsRecord(tail[i], slugs[i], RecordsOf(slugs[i], carriers, details)) && tail[i].name == FirstName(slugs[i], details)
    {
      assert SlugRight(listed, carriers, details, r, slugs[i]);
    }
    forall slug | Named(listed, details, slug) ensures exists app :: app in tail && app.slug == slug {
      assert SlugRight(listed, carriers, details, r, slug);
      assert slug in slugs;
      var i :| 0 <= i < |slugs| && slugs[i] == slug;
      assert tail[i] in tail;
    }
  }

  /** The whole promise: as many applications as were listed and recovered; the listed ones first, in slug order, every
      one of them and as the list told it; then the rebuilt ones. */
  ghost predicate Assembled(apps: seq<WireApplication>, details: seq<WireProvider>, carriers: map<string, seq<string>>,
                            out: seq<Application>, recovered: nat) {
    && |out| == |apps| + recovered
    && (exists sorted :: multiset(sorted) == multiset(apps) && Sorted(BySlug, sorted) && ListedFirst(sorted, details, carriers, out))
    && RebuiltTail(out[|apps|..], Slugs(apps), carriers, details)
  }

  ghost predicate ListedFirst(sorted: seq<WireApplication>, details: seq<WireProvider>, carriers: map<string, seq<string>>, out: seq<Application>) {
    |sorted| <= |out| && forall i :: 0 <= i < |sorted| ==> out[i] == ListedApp(sorted[i], ByKey(details), carriers)
  }

  lemma {:induction false} RecordIsKept(slug: string, carriers: map<string, seq<string>>, details: seq<WireProvider>, d: WireProvider)
    requires d in details && SlugOf(d).0 == slug
    ensures FromDetail(d, carriers) in RecordsOf(slug, carriers, details)
  {
    SplitLast(details);
    if d != details[|details| - 1] {
      RecordIsKept(slug, carriers, details[..|details| - 1], d);
    }
  }

  /** No provider record is lost: one that names an application is either with a listed one or in exactly one rebuilt
      record, and a rebuilt record takes nothing from a listed slug. */
  lemma NoRecordIsLost(apps: seq<WireApplication>, details: seq<WireProvider>, carriers: map<string, seq<string>>, out: seq<Application>,
                       recovered: nat, d: WireProvider)
    requires Assembled(apps, details, carriers, out, recovered) && d in details && SlugOf(d).0 != ""
    ensures SlugOf(d).0 in Slugs(apps) ==> forall app :: app in out[|apps|..] ==> app.slug != SlugOf(d).0
    ensures SlugOf(d).0 !in Slugs(apps) ==>
      exists app :: app in out[|apps|..] && app.slug == SlugOf(d).0 && FromDetail(d, carriers) in app.providers
  {
    var slug := SlugOf(d).0;
    if slug !in Slugs(apps) {
      assert Named(Slugs(apps), details, slug) by { assert Withheld(Slugs(apps), d); }
      RecordIsKept(slug, carriers, details, d);
    }
  }
}
