/** What matching keeps and what a match means. */
module MatchingLaws {
  import opened Options
  import opened Text
  import opened Vocabulary
  import opened Lists
  import opened Grouping
  import opened Fleet
  import opened FleetIndex
  import opened AuthentikAccounts
  import opened AuthentikMatching

  // ---------------------------------------------------------------------------
  // Every application lands once
  // ---------------------------------------------------------------------------

  predicate Ties(v: Verdict, key: string) { v.result.Some? && v.result.value.Found? && v.result.value.key == key }

  /** The applications tied to one service, in the order they were read, with how and on what. */
  function TiedTo(vs: seq<Verdict>, key: string): AuthentikMatch {
    if vs == [] then NOTHING else
      var v := vs[|vs| - 1];
      if Ties(v, key) then With(TiedTo(vs[..|vs| - 1], key), v.app, v.result.value) else TiedTo(vs[..|vs| - 1], key)
  }

  /** The accounts and the notes of those, in the same order. */
  function AccountsTied(vs: seq<Verdict>, key: string): seq<Account> {
    if vs == [] then [] else AccountsTied(vs[..|vs| - 1], key) + (if Ties(vs[|vs| - 1], key) then vs[|vs| - 1].accounts else [])
  }

  function NotesTied(vs: seq<Verdict>, key: string): seq<MatchNote> {
    if vs == [] then [] else NotesTied(vs[..|vs| - 1], key) + (if Ties(vs[|vs| - 1], key) then vs[|vs| - 1].notes else [])
  }

  /** The rest, in the order they were read, each with why. */
  function Untied(vs: seq<Verdict>): seq<Unmatched> {
    if vs == [] then [] else
      Untied(vs[..|vs| - 1]) + (if vs[|vs| - 1].result.None? then [Explained(vs[|vs| - 1].app, vs[|vs| - 1].trace)] else [])
  }

  ghost predicate Right(m: Matches, vs: seq<Verdict>, key: string) {
    && At(m, key) == TiedTo(vs, key) && m.unmatched == Untied(vs)
    && Get(m.accounts, key) == AccountsTied(vs, key) && Get(m.notes, key) == NotesTied(vs, key)
    && (key in m.byService <==> exists v :: v in vs && Ties(v, key))
  }

  lemma PlaceIsRight(m: Matches, vs: seq<Verdict>, v: Verdict, key: string)
    requires Right(m, vs, key) && Sensible(v)
    ensures Right(Place(m, v), vs + [v], key)
  {
    OneMoreTied(vs, v, key);
    assert forall x :: x in vs + [v] <==> x in vs || x == v;
  }

  lemma OneMoreTied(vs: seq<Verdict>, v: Verdict, key: string)
    ensures TiedTo(vs + [v], key) == if Ties(v, key) then With(TiedTo(vs, key), v.app, v.result.value) else TiedTo(vs, key)
    ensures AccountsTied(vs + [v], key) == AccountsTied(vs, key) + (if Ties(v, key) then v.accounts else [])
    ensures NotesTied(vs + [v], key) == NotesTied(vs, key) + (if Ties(v, key) then v.notes else [])
    ensures Untied(vs + [v]) == Untied(vs) + (if v.result.None? then [Explained(v.app, v.trace)] else [])
  {
    assert (vs + [v])[..|vs|] == vs;
  }

  /** Each service holds exactly the applications whose verdict named it, in the order they were read, the evidence and
      the strengths beside them; and exactly the rest are unmatched, in order. */
  lemma {:induction false} EachApplicationLandsOnce(vs: seq<Verdict>, key: string)
    requires forall v :: v in vs ==> Sensible(v)
    ensures Right(PlaceAll(vs), vs, key)
  {
    if vs != [] {
      SplitLast(vs);
      var n := |vs| - 1;
      EachApplicationLandsOnce(vs[..n], key);
      PlaceIsRight(PlaceAll(vs[..n]), vs[..n], vs[n], key);
    }
  }

  lemma {:induction false} VerdictsAreSensible(o: Outside, ix: Index, names: NameIndex, apps: seq<Application>)
    ensures |Verdicts(o, ix, names, apps)| == |apps| && forall v :: v in Verdicts(o, ix, names, apps) ==> Sensible(v)
  {
    if apps != [] {
      VerdictsAreSensible(o, ix, names, apps[..|apps| - 1]);
    }
  }

  /** The three lists of a match stay parallel. */
  ghost predicate Parallel(m: AuthentikMatch) { |m.applications| == |m.evidence| == |m.strength| }

  lemma {:induction false} MatchesAreParallel(vs: seq<Verdict>, key: string)
    ensures Parallel(TiedTo(vs, key))
  {
    if vs != [] {
      MatchesAreParallel(vs[..|vs| - 1], key);
    }
  }

  function Held(m: Matches, keys: seq<string>): nat {
    if keys == [] then 0 else Held(m, keys[..|keys| - 1]) + |At(m, keys[|keys| - 1]).applications|
  }

  lemma {:induction false} PlaceHolds(m: Matches, v: Verdict, keys: seq<string>)
    requires v.result.Some? && v.result.value.Found? && Distinct(keys)
    ensures Held(Place(m, v), keys) == Held(m, keys) + (if v.result.value.key in keys then 1 else 0)
  {
    if keys != [] {
      SplitLast(keys);
      PlaceHolds(m, v, keys[..|keys| - 1]);
    }
  }

  lemma {:induction false} UnmatchedHolds(m: Matches, v: Verdict, keys: seq<string>)
    requires v.result.None?
    ensures Held(Place(m, v), keys) == Held(m, keys)
  {
    if keys != [] {
      UnmatchedHolds(m, v, keys[..|keys| - 1]);
    }
  }

  lemma {:induction false} NothingHeld(keys: seq<string>)
    ensures Held(NO_MATCHES, keys) == 0
  {
    if keys != [] {
      NothingHeld(keys[..|keys| - 1]);
    }
  }

  lemma {:induction false} HeldCounts(vs: seq<Verdict>, keys: seq<string>)
    requires Distinct(keys)
    requires forall v :: v in vs ==> Sensible(v) && (v.result.Some? ==> v.result.value.key in keys)
    ensures Held(PlaceAll(vs), keys) + |PlaceAll(vs).unmatched| == |vs|
  {
    if vs == [] {
      NothingHeld(keys);
    } else {
      SplitLast(vs);
      var n := |vs| - 1;
      HeldCounts(vs[..n], keys);
      if vs[n].result.None? {
        UnmatchedHolds(PlaceAll(vs[..n]), vs[n], keys);
      } else {
        PlaceHolds(PlaceAll(vs[..n]), vs[n], keys);
      }
    }
  }

  // ---------------------------------------------------------------------------
  // What a match means
  // ---------------------------------------------------------------------------

  ghost predicate Offered(asked: seq<string>, lookup: string -> seq<string>, k: string) {
    exists a :: a in asked && k in lookup(a)
  }

  lemma {:induction false} AppendKeysHas(into: seq<string>, keys: seq<string>, k: string)
    requires Distinct(into)
    ensures Distinct(AppendKeys(into, keys)) && (k in AppendKeys(into, keys) <==> k in into || k in keys)
  {
    if keys != [] {
      SplitLast(keys);
      AppendKeysHas(into, keys[..|keys| - 1], k);
      AppendOnceDistinct(AppendKeys(into, keys[..|keys| - 1]), keys[|keys| - 1]);
    }
  }

  lemma {:induction false} GatheredHas(asked: seq<string>, lookup: string -> seq<string>, k: string)
    ensures Distinct(Gathered(asked, lookup)) && (k in Gathered(asked, lookup) <==> Offered(asked, lookup, k))
  {
    if asked != [] {
      SplitLast(asked);
      var last, before := asked[|asked| - 1], asked[..|asked| - 1];
      GatheredHas(before, lookup, k);
      AppendKeysHas(Gathered(before, lookup), lookup(last), k);
      assert last in asked && forall a :: a in before ==> a in asked;
    }
  }

  ghost predicate SoleOffer(asked: seq<string>, lookup: string -> seq<string>, k: string) {
    Offered(asked, lookup, k) && forall j :: Offered(asked, lookup, j) ==> j == k
  }

  /** Gathering decides for a service exactly when it is the only one any of the lookups offers, and finds the evidence
      contested exactly when they offer two. */
  lemma DecidedIsTheSoleOffer(asked: seq<string>, lookup: string -> seq<string>, strength: Strength, evidence: string, otherwise: Result, k: string)
    requires !otherwise.Found? && !otherwise.Contested?
    ensures var r := Decided(Gathered(asked, lookup), strength, evidence, otherwise);
      && (r == Found(k, strength, evidence) <==> SoleOffer(asked, lookup, k))
      && (r.Contested? <==> exists i, j :: i != j && Offered(asked, lookup, i) && Offered(asked, lookup, j))
  {
    var found := Gathered(asked, lookup);
    forall j ensures Distinct(found) && (j in found <==> Offered(asked, lookup, j)) {
      GatheredHas(asked, lookup, j);
    }
    if |found| == 1 {
      SplitFirst(found);
      assert forall j :: j in found ==> j == found[0];
    } else if |found| > 1 {
      assert found[0] in found && found[1] in found && found[0] != found[1];
    }
    if SoleOffer(asked, lookup, k) {
      OnlyOne(found, k);
    }
  }

  /** The strongest rule: the application is tied by address through a proxy provider exactly when one service, and only
      one, answers any of the addresses its proxy providers forward to. What it cites is the first of those addresses,
      which is one the service answers exactly when any service does. */
  lemma AddressRuleMeans(o: Outside, ix: Index, app: Application, k: string)
    ensures var hosts := InternalHosts(app.providers);
      (exists e :: RuleInternalHost(o, ix, app) == Found(k, AddressMatch, e)) <==> SoleOffer(hosts, ByUrlOf(o, ix), k)
    ensures var hosts, r := InternalHosts(app.providers), RuleInternalHost(o, ix, app);
      r.Found? ==> hosts != [] && r.evidence == hosts[0] && (r.key in ByUrlOf(o, ix)(hosts[0]) <==> ByUrlOf(o, ix)(hosts[0]) != [])
  {
    var hosts, r := InternalHosts(app.providers), RuleInternalHost(o, ix, app);
    if hosts != [] {
      DecidedIsTheSoleOffer(hosts, ByUrlOf(o, ix), AddressMatch, hosts[0], NoCandidate, k);
      if r.Found? {
        DecidedIsTheSoleOffer(hosts, ByUrlOf(o, ix), AddressMatch, hosts[0], NoCandidate, r.key);
        AnyOfferIsTheSole(hosts, ByUrlOf(o, ix), r.key, hosts[0]);
      }
    }
  }

  lemma AnyOfferIsTheSole(asked: seq<string>, lookup: string -> seq<string>, k: string, a: string)
    requires SoleOffer(asked, lookup, k) && a in asked
    ensures k in lookup(a) <==> lookup(a) != []
  {
    if lookup(a) != [] {
      assert lookup(a)[0] in lookup(a);
      assert Offered(asked, lookup, lookup(a)[0]);
    }
  }

  /** The other two address rules cite the first of what they ask that any service answers. */
  lemma {:induction false} FirstAnsweredIs(asked: seq<string>, lookup: string -> seq<string>)
    requires exists a :: a in asked && lookup(a) != []
    ensures FirstAnswered(asked, lookup) in asked && lookup(FirstAnswered(asked, lookup)) != []
  {
    if lookup(asked[0]) == [] {
      SplitFirst(asked);
      FirstAnsweredIs(asked[1..], lookup);
    }
  }

  lemma SoleIsCited(asked: seq<string>, lookup: string -> seq<string>, k: string)
    requires SoleOffer(asked, lookup, k)
    ensures FirstAnswered(asked, lookup) in asked && k in lookup(FirstAnswered(asked, lookup))
  {
    var a :| a in asked && k in lookup(a);
    assert lookup(a) != [];
    FirstAnsweredIs(asked, lookup);
    AnyOfferIsTheSole(asked, lookup, k, FirstAnswered(asked, lookup));
  }

  /** So what those two cite is always something the service found answers. */
  lemma CitedURLsAnswer(o: Outside, ix: Index, app: Application)
    ensures var urls, r := HandedOutURLs(app).urls, RuleURLHost(o, ix, app);
      r.Found? ==> r.evidence in urls && r.key in ByBareNameOf(o, ix)(r.evidence)
    ensures var hosts, r := HostnamesIn(o, HandedOutURLs(app).urls), RuleHostname(o, ix, app);
      r.Found? ==> r.evidence in hosts && r.key in ByHostnameOf(ix)(r.evidence)
  {
    var urls := HandedOutURLs(app).urls;
    var hosts := HostnamesIn(o, urls);
    if RuleURLHost(o, ix, app).Found? {
      URLRuleMeans(o, ix, app, RuleURLHost(o, ix, app).key);
      SoleIsCited(urls, ByBareNameOf(o, ix), RuleURLHost(o, ix, app).key);
    }
    if RuleHostname(o, ix, app).Found? {
      HostnameRuleMeans(o, ix, app, RuleHostname(o, ix, app).key);
      SoleIsCited(hosts, ByHostnameOf(ix), RuleHostname(o, ix, app).key);
    }
  }

  lemma HostnameRuleMeans(o: Outside, ix: Index, app: Application, k: string)
    ensures var hosts := HostnamesIn(o, HandedOutURLs(app).urls);
      (exists e :: RuleHostname(o, ix, app) == Found(k, HostnameMatch, e)) <==> SoleOffer(hosts, ByHostnameOf(ix), k)
  {
    var hosts := HostnamesIn(o, HandedOutURLs(app).urls);
    if hosts != [] {
      DecidedIsTheSoleOffer(hosts, ByHostnameOf(ix), HostnameMatch, FirstAnswered(hosts, ByHostnameOf(ix)), NoCandidate, k);
    }
  }

  function StrengthRank(s: Strength): nat { if s.AddressMatch? then 0 else if s.HostnameMatch? then 1 else 2 }

  function RuleResults(o: Outside, ix: Index, names: NameIndex, app: Application): seq<Result> {
    [RuleInternalHost(o, ix, app), RuleURLHost(o, ix, app), RuleHostname(o, ix, app), RuleName(o, names, app)]
  }

  /** The second rule, over the bare names alone in the URLs it hands out. */
  lemma URLRuleMeans(o: Outside, ix: Index, app: Application, k: string)
    ensures var urls := HandedOutURLs(app).urls;
      (exists e :: RuleURLHost(o, ix, app) == Found(k, AddressMatch, e)) <==> SoleOffer(urls, ByBareNameOf(o, ix), k)
  {
    var urls := HandedOutURLs(app).urls;
    if urls != [] {
      DecidedIsTheSoleOffer(urls, ByBareNameOf(o, ix), AddressMatch, FirstAnswered(urls, ByBareNameOf(o, ix)),
                            if AnyBlocked(o, urls) then Blocked else NoCandidate, k);
    }
  }

  lemma AddressStrengths(o: Outside, ix: Index, app: Application)
    ensures RuleInternalHost(o, ix, app).Found? ==> RuleInternalHost(o, ix, app).strength.AddressMatch?
    ensures RuleURLHost(o, ix, app).Found? ==> RuleURLHost(o, ix, app).strength.AddressMatch?
  {
  }

  lemma HostnameStrength(o: Outside, ix: Index, app: Application)
    ensures RuleHostname(o, ix, app).Found? ==> RuleHostname(o, ix, app).strength.HostnameMatch?
  {
  }

  lemma NameStrength(o: Outside, names: NameIndex, app: Application)
    ensures RuleName(o, names, app).Found? ==> RuleName(o, names, app).strength.NameMatch?
  {
    var i := FirstEntry(names, Trials(o, app));
  }

  ghost predicate HasStrength(r: Result, s: Strength) { r.Found? ==> r.strength == s }

  /** `m` is found by one of the four, at a strength none of them betters. */
  ghost predicate Strongest(m: Option<Result>, rs: seq<Result>) {
    && (m.None? <==> forall r :: r in rs ==> !r.Found?)
    && (m.Some? ==> m.value in rs && m.value.Found? && NoneBetter(m.value, rs))
  }

  ghost predicate NoneBetter(m: Result, rs: seq<Result>)
    requires m.Found?
  {
    forall r :: r in rs && r.Found? ==> StrengthRank(m.strength) <= StrengthRank(r.strength)
  }

  lemma FirstIsStrongest(a: Result, b: Result, c: Result, d: Result)
    requires HasStrength(a, AddressMatch) && HasStrength(b, AddressMatch) && HasStrength(c, HostnameMatch) && HasStrength(d, NameMatch)
    ensures Strongest(FirstFound(a, b, c, d), [a, b, c, d])
  {
    var rs := [a, b, c, d];
    assert rs[0] in rs && rs[1] in rs && rs[2] in rs && rs[3] in rs;
    assert forall r :: r in rs ==> r == a || r == b || r == c || r == d;
  }

  /** An application goes unmatched exactly when no rule finds a service, and a matched one carries the strongest
      evidence any rule found. A rule that is contested or blocked stops none of the others: it only adds nothing. */
  lemma MatchIsTheStrongest(o: Outside, ix: Index, names: NameIndex, app: Application)
    ensures Strongest(Match(o, ix, names, app), RuleResults(o, ix, names, app))
  {
    AddressStrengths(o, ix, app);
    HostnameStrength(o, ix, app);
    NameStrength(o, names, app);
    FirstIsStrongest(RuleInternalHost(o, ix, app), RuleURLHost(o, ix, app), RuleHostname(o, ix, app), RuleName(o, names, app));
  }

  // ---------------------------------------------------------------------------
  // The trace and the reason
  // ---------------------------------------------------------------------------

  lemma {:induction false} FirstLineIs(trace: seq<TraceLine>, p: Result -> bool)
    ensures FirstLine(trace, p).Some? <==> exists i :: 0 <= i < |trace| && trace[i].Tried? && p(trace[i].result)
    ensures FirstLine(trace, p).Some? ==> Tried(FirstLine(trace, p).value) in trace && p(FirstLine(trace, p).value)
  {
    if trace != [] {
      SplitFirst(trace);
      FirstLineIs(trace[1..], p);
      if i :| 0 <= i < |trace| && trace[i].Tried? && p(trace[i].result) {
        assert i > 0 ==> trace[1..][i - 1] == trace[i];
      }
    }
  }

  /** The trace has the rules in order up to the one that found a service, or all four. */
  ghost predicate TellsAll(t: seq<TraceLine>, start: seq<TraceLine>, rs: seq<Result>, m: Option<Result>) {
    var n := |start|;
    && n < |t| <= n + |rs| && t[..n] == start
    && (forall i :: n <= i < |t| ==> t[i] == Tried(rs[i - n]))
    && (forall i :: 0 <= i < |t| - n - 1 ==> !rs[i].Found?)
    && (if m.Some? then t[|t| - 1] == Tried(m.value) else |t| == n + |rs|)
  }

  lemma FourTellAll(start: seq<TraceLine>, a: Result, b: Result, c: Result, d: Result)
    ensures TellsAll(TraceFrom(start, a, b, c, d), start, [a, b, c, d], FirstFound(a, b, c, d))
  {
  }

  /** The trace of a match ends in the rule that found it; that of an unmatched application has all four rules, in order. */
  lemma TraceTellsAll(o: Outside, ix: Index, names: NameIndex, app: Application)
    ensures TellsAll(Trace(o, ix, names, app), Start(app), RuleResults(o, ix, names, app), Match(o, ix, names, app))
  {
    FourTellAll(Start(app), RuleInternalHost(o, ix, app), RuleURLHost(o, ix, app), RuleHostname(o, ix, app), RuleName(o, names, app));
  }

  ghost predicate WorstShown(u: Unmatched, rs: seq<Result>) {
    && (u.ambiguous <==> exists r :: r in rs && r.Contested?)
    && (u.detail.Some? <==> exists r :: r in rs && (r.Contested? || r.Blocked?))
    && (u.detail.Some? ==> u.detail.value in rs && if u.ambiguous then u.detail.value.Contested? else u.detail.value.Blocked?)
  }

  lemma FirstOfRules(start: seq<TraceLine>, rs: seq<Result>, t: seq<TraceLine>, p: Result -> bool)
    requires (forall l :: l in start ==> l.WasRebuilt?) && |t| == |start| + |rs|
    requires t[..|start|] == start && forall i :: |start| <= i < |t| ==> t[i] == Tried(rs[i - |start|])
    ensures FirstLine(t, p).Some? <==> exists r :: r in rs && p(r)
    ensures FirstLine(t, p).Some? ==> FirstLine(t, p).value in rs && p(FirstLine(t, p).value)
  {
    FirstLineIs(t, p);
    assert forall i :: 0 <= i < |start| ==> t[..|start|][i] == t[i] && start[i] in start;
    forall l | l in t && l.Tried? ensures l.result in rs {
      var i :| 0 <= i < |t| && t[i] == l;
    }
    if r :| r in rs && p(r) {
      var i :| 0 <= i < |rs| && rs[i] == r;
      assert t[|start| + i] == Tried(r);
    }
  }

  lemma WorstOfRules(app: Application, start: seq<TraceLine>, rs: seq<Result>, t: seq<TraceLine>)
    requires (forall l :: l in start ==> l.WasRebuilt?) && |t| == |start| + |rs|
    requires t[..|start|] == start && forall i :: |start| <= i < |t| ==> t[i] == Tried(rs[i - |start|])
    ensures WorstShown(Explained(app, t), rs)
  {
    FirstOfRules(start, rs, t, IsContested());
    FirstOfRules(start, rs, t, IsBlocked());
    assert forall r: Result :: IsContested()(r) == r.Contested? && IsBlocked()(r) == r.Blocked?;
  }

  /** The reason is ambiguity exactly when some rule was contested; the line shown is a contested rule's when there is one,
      else a blocked one's when there is one. */
  lemma ReasonIsTheWorst(o: Outside, ix: Index, names: NameIndex, app: Application)
    requires Match(o, ix, names, app).None?
    ensures WorstShown(Explained(app, Trace(o, ix, names, app)), RuleResults(o, ix, names, app))
  {
    TraceTellsAll(o, ix, names, app);
    WorstOfRules(app, Start(app), RuleResults(o, ix, names, app), Trace(o, ix, names, app));
  }

  // ---------------------------------------------------------------------------
  // The name rule
  // ---------------------------------------------------------------------------

  /** The service, and no other, goes by this name in this form. */
  ghost predicate SoleNamed(placed: seq<Placed>, t: Trial, k: string) {
    && (exists p :: p in placed && p.Key() == k && NamedBy(p, t))
    && forall p :: p in placed && NamedBy(p, t) ==> p.Key() == k
  }

  ghost predicate NamedBy(p: Placed, t: Trial) {
    |t.key| >= MIN_DERIVED_KEY && if t.tight then CalledTight(p, t.key) else Called(p, t.key)
  }

  lemma EntriesAre(placed: seq<Placed>, t: Trial, k: string)
    ensures var found := Entries(NamesOf(placed), t);
      Distinct(found) && (k in found <==> exists p :: p in placed && p.Key() == k && NamedBy(p, t))
  {
    NamesFindServices(placed, t.key, k);
  }

  lemma SoleEntry(placed: seq<Placed>, t: Trial, k: string)
    ensures Entries(NamesOf(placed), t) == [k] <==> SoleNamed(placed, t, k)
  {
    var found := Entries(NamesOf(placed), t);
    forall j ensures Distinct(found) && (j in found <==> exists p :: p in placed && p.Key() == j && NamedBy(p, t)) {
      EntriesAre(placed, t, j);
    }
    if found == [k] {
      assert k in found;
      forall p | p in placed && NamedBy(p, t) ensures p.Key() == k { assert p.Key() in found; }
    }
    if SoleNamed(placed, t, k) {
      assert k in found;
      forall x | x in found ensures x == k {
        var p :| p in placed && p.Key() == x && NamedBy(p, t);
      }
      OnlyOne(found, k);
    }
  }

  lemma RuleNameIs(o: Outside, names: NameIndex, app: Application, k: string)
    ensures var ts, i := Trials(o, app), FirstEntry(names, Trials(o, app));
      (exists e :: RuleName(o, names, app) == Found(k, NameMatch, e)) <==> i < |ts| && Entries(names, ts[i]) == [k]
  {
    var ts, i := Trials(o, app), FirstEntry(names, Trials(o, app));
    if i < |ts| && Entries(names, ts[i]) == [k] {
      assert RuleName(o, names, app) == Found(k, NameMatch, ts[i].raw);
    }
  }

  ghost predicate FirstSole(placed: seq<Placed>, ts: seq<Trial>, k: string) {
    exists i :: 0 <= i < |ts| && SoleNamed(placed, ts[i], k) && forall j :: 0 <= j < i ==> Nobody(placed, ts[j])
  }

  lemma FirstEntryIsFirstSole(placed: seq<Placed>, ts: seq<Trial>, k: string)
    ensures var names, i := NamesOf(placed), FirstEntry(NamesOf(placed), ts);
      i < |ts| && Entries(names, ts[i]) == [k] <==> FirstSole(placed, ts, k)
  {
    var names := NamesOf(placed);
    forall t: Trial ensures (Entries(names, t) == [k] <==> SoleNamed(placed, t, k)) && (Entries(names, t) == [] <==> Nobody(placed, t)) {
      SoleEntry(placed, t, k);
      EmptyEntry(placed, t);
    }
    if FirstSole(placed, ts, k) {
      var i :| 0 <= i < |ts| && SoleNamed(placed, ts[i], k) && forall j :: 0 <= j < i ==> Nobody(placed, ts[j]);
      FirstEntryIs(names, ts, i);
    }
  }

  /** The name rule ties an application to a service exactly when that service alone goes by the first of its names, in
      the first form, that any service goes by; a name shorter than three characters once derived never counts. */
  lemma NameRuleMeans(o: Outside, placed: seq<Placed>, app: Application, k: string)
    ensures (exists e :: RuleName(o, NamesOf(placed), app) == Found(k, NameMatch, e)) <==> FirstSole(placed, Trials(o, app), k)
  {
    RuleNameIs(o, NamesOf(placed), app, k);
    FirstEntryIsFirstSole(placed, Trials(o, app), k);
  }

  ghost predicate Nobody(placed: seq<Placed>, t: Trial) { forall p :: p in placed ==> !NamedBy(p, t) }

  lemma EmptyEntry(placed: seq<Placed>, t: Trial)
    ensures Entries(NamesOf(placed), t) == [] <==> Nobody(placed, t)
  {
    var found := Entries(NamesOf(placed), t);
    forall j ensures Distinct(found) && (j in found <==> exists p :: p in placed && p.Key() == j && NamedBy(p, t)) {
      EntriesAre(placed, t, j);
    }
    if found != [] {
      assert found[0] in found;
    }
    forall p | p in placed && NamedBy(p, t) ensures p.Key() in found {}
  }

  // ---------------------------------------------------------------------------
  // A name lost to a wider form
  // ---------------------------------------------------------------------------

  /** Two services go by this name in this form. */
  ghost predicate Shared(placed: seq<Placed>, t: Trial) {
    exists p, q :: p in placed && q in placed && p.Key() != q.Key() && NamedBy(p, t) && NamedBy(q, t)
  }

  ghost predicate FirstShared(placed: seq<Placed>, ts: seq<Trial>) {
    exists i :: 0 <= i < |ts| && Shared(placed, ts[i]) && forall j :: 0 <= j < i ==> Nobody(placed, ts[j])
  }

  lemma SharedEntries(placed: seq<Placed>, t: Trial)
    ensures |Entries(NamesOf(placed), t)| > 1 <==> Shared(placed, t)
  {
    if |Entries(NamesOf(placed), t)| > 1 {
      TwoEntriesShare(placed, t, Entries(NamesOf(placed), t)[0], Entries(NamesOf(placed), t)[1]);
    }
    if p, q :| p in placed && q in placed && p.Key() != q.Key() && NamedBy(p, t) && NamedBy(q, t) {
      SharedHasTwo(placed, t, p, q);
    }
  }

  lemma TwoIn(found: seq<string>, j: string, k: string)
    requires j in found && k in found && j != k
    ensures |found| > 1
  {
  }

  lemma SharedHasTwo(placed: seq<Placed>, t: Trial, p: Placed, q: Placed)
    requires p in placed && q in placed && p.Key() != q.Key() && NamedBy(p, t) && NamedBy(q, t)
    ensures |Entries(NamesOf(placed), t)| > 1
  {
    EntriesAre(placed, t, p.Key());
    EntriesAre(placed, t, q.Key());
    TwoIn(Entries(NamesOf(placed), t), p.Key(), q.Key());
  }

  lemma TwoEntriesShare(placed: seq<Placed>, t: Trial, j: string, k: string)
    requires |Entries(NamesOf(placed), t)| > 1 && j == Entries(NamesOf(placed), t)[0] && k == Entries(NamesOf(placed), t)[1]
    ensures Shared(placed, t)
  {
    EntriesAre(placed, t, j);
    EntriesAre(placed, t, k);
    var p :| p in placed && p.Key() == j && NamedBy(p, t);
    var q :| q in placed && q.Key() == k && NamedBy(q, t);
  }

  lemma FirstEntryIsFirstShared(placed: seq<Placed>, ts: seq<Trial>)
    ensures var names, i := NamesOf(placed), FirstEntry(NamesOf(placed), ts);
      i < |ts| && |Entries(names, ts[i])| > 1 <==> FirstShared(placed, ts)
  {
    var names, i := NamesOf(placed), FirstEntry(NamesOf(placed), ts);
    if i < |ts| && |Entries(names, ts[i])| > 1 {
      SharedEntries(placed, ts[i]);
      forall j | 0 <= j < i ensures Nobody(placed, ts[j]) { EmptyEntry(placed, ts[j]); }
    }
    if k: nat :| k < |ts| && Shared(placed, ts[k]) && forall j :: 0 <= j < k ==> Nobody(placed, ts[j]) {
      SharedEntries(placed, ts[k]);
      forall j | 0 <= j < k ensures Entries(names, ts[j]) == [] { EmptyEntry(placed, ts[j]); }
      FirstEntryIs(names, ts, k);
    }
  }

  lemma SomebodyIsFirst(names: NameIndex, ts: seq<Trial>, j: nat)
    requires j < |ts| && Entries(names, ts[j]) != []
    ensures FirstEntry(names, ts) <= j
  {
  }

  /** When some name of an application, in some form, is one service's alone, the name rule still finds nobody exactly
      when two services go by the first of its names, in the first form, that any service goes by. */
  lemma SoleNameIsLostExactly(o: Outside, placed: seq<Placed>, app: Application, j: nat, k: string)
    requires j < |Trials(o, app)| && SoleNamed(placed, Trials(o, app)[j], k)
    ensures !RuleName(o, NamesOf(placed), app).Found? <==> FirstShared(placed, Trials(o, app))
  {
    var names, ts := NamesOf(placed), Trials(o, app);
    SoleEntry(placed, ts[j], k);
    SomebodyIsFirst(names, ts, j);
    FirstEntryIsFirstShared(placed, ts);
  }

  /** An application called after a stack of two services is one such: its own name may be one service's alone. */
  lemma StackNameHides(o: Outside, placed: seq<Placed>, app: Application, p: Placed, q: Placed)
    requires p in placed && q in placed && p.Key() != q.Key() && p.stackId == q.stackId
    requires Fold(app.slug) == Fold(p.stackId) && |Fold(app.slug)| >= MIN_DERIVED_KEY
    ensures !RuleName(o, NamesOf(placed), app).Found?
  {
    var ts := Trials(o, app);
    assert ts[0] == Trial(app.slug, Fold(app.slug), false);
    assert p.stackId == AuthentikMatching.StackNames(p)[0] && q.stackId == AuthentikMatching.StackNames(q)[0];
    assert NamedBy(p, ts[0]) && NamedBy(q, ts[0]);
    assert Shared(placed, ts[0]);
    FirstEntryIsFirstShared(placed, ts);
  }

  lemma {:induction false} NameCharsStay(s: string)
    requires forall i :: 0 <= i < |s| ==> IsNameChar(s[i])
    ensures OnlyNameChars(s) == s
  {
    if s != "" {
      NameCharsStay(s[1..]);
    }
  }

  lemma PlainNames(s: string)
    requires forall i :: 0 <= i < |s| ==> IsNameChar(s[i])
    ensures Fold(s) == s && TightKey(s) == s
  {
    assert Trim(s) == s;
    assert Lower(s) == s;
    NameCharsStay(s);
  }

  function Bare(name: string): Service {
    Service(name, "", [], [], [], [], [], [], [], [], NoAuth, false, None, None, None, None, [])
  }

  lemma DashIsDropped()
    ensures Tighten("w-eb") == "web"
  {
    assert Lower("w-eb") == "w-eb";
    assert "w-eb"[1..] == "-eb" && "-eb"[1..] == "eb";
    NameCharsStay("eb");
  }

  lemma CalledByService(p: Placed, t: Trial)
    requires t.tight && |t.key| >= MIN_DERIVED_KEY && TightKey(p.svc.name) == t.key
    ensures NamedBy(p, t)
  {
    assert p.svc.name == AuthentikMatching.StackNames(p)[1];
  }

  lemma NotCalled(p: Placed, t: Trial)
    requires t.tight && TightKey(p.stackId) != t.key && TightKey(p.svc.name) != t.key && TightKey(p.svc.containerName) != t.key
    ensures !NamedBy(p, t)
  {
  }

  lemma NameTightened(o: Outside, app: Application)
    ensures app.providers == [] ==> Trials(o, app)[3] == Trial(app.name, Tighten(app.name), true)
  {
  }

  function Pair(): seq<Placed> { [Placed("arr", Bare("web")), Placed("arr", Bare("db"))] }

  lemma PairIsNamed()
    ensures WellNamed(Pair()) && Pair()[0].Key() != Pair()[1].Key()
  {
    assert "web"[0] != "db"[0];
    assert Pair()[0].Key()[4] != Pair()[1].Key()[4];
  }

  lemma WebIsTheFirsts(raw: string)
    ensures SoleNamed(Pair(), Trial(raw, "web", true), Pair()[0].Key())
  {
    var t := Trial(raw, "web", true);
    assert NamedBy(Pair()[0], t) by {
      PlainNames("web");
      CalledByService(Pair()[0], t);
    }
    assert !NamedBy(Pair()[1], t) by {
      OthersAreNot();
      NotCalled(Pair()[1], t);
    }
    FirstAlone(Pair(), t);
  }

  lemma OthersAreNot()
    ensures TightKey("arr") != "web" && TightKey("db") != "web" && TightKey("") != "web"
  {
    PlainNames("arr");
    PlainNames("db");
    PlainNames("");
    assert "db"[0] != "web"[0] && "arr"[0] != "web"[0];
  }

  lemma FirstAlone(placed: seq<Placed>, t: Trial)
    requires |placed| == 2 && NamedBy(placed[0], t) && !NamedBy(placed[1], t)
    ensures SoleNamed(placed, t, placed[0].Key())
  {
    var named := (p: Placed) => NamedBy(p, t);
    OneOfTwo(placed, named);
    assert forall p :: named(p) <==> NamedBy(p, t);
  }

  lemma OneOfTwo(placed: seq<Placed>, named: Placed -> bool)
    requires |placed| == 2 && named(placed[0]) && !named(placed[1])
    ensures placed[0] in placed && forall p :: p in placed && named(p) ==> p == placed[0]
  {
  }

  function Dashed(): Application { Application("w-eb", "arr", "", "", [], true) }

  lemma DashedIsHidden(o: Outside)
    ensures !RuleName(o, NamesOf(Pair()), Dashed()).Found?
  {
    PairIsNamed();
    PlainNames("arr");
    assert Pair()[0] in Pair() && Pair()[1] in Pair();
    StackNameHides(o, Pair(), Dashed(), Pair()[0], Pair()[1]);
  }

  lemma DashedIsSole(o: Outside)
    ensures 3 < |Trials(o, Dashed())| && SoleNamed(Pair(), Trials(o, Dashed())[3], Pair()[0].Key())
  {
    DashIsDropped();
    NameTightened(o, Dashed());
    WebIsTheFirsts("w-eb");
  }

  /** A concrete one: without its dash the name is one service's alone, and the slug is the name of a stack of two. */
  lemma SoleNameMayBeLost(o: Outside) returns (placed: seq<Placed>, app: Application, j: nat, k: string)
    ensures WellNamed(placed) && j < |Trials(o, app)| && SoleNamed(placed, Trials(o, app)[j], k)
    ensures !RuleName(o, NamesOf(placed), app).Found?
  {
    placed, app, j, k := Pair(), Dashed(), 3, Pair()[0].Key();
    PairIsNamed();
    DashedIsSole(o);
    DashedIsHidden(o);
  }

  // ---------------------------------------------------------------------------
  // An address cited that nobody answers
  // ---------------------------------------------------------------------------

  lemma BareMentions(name: string, l: string)
    ensures Mentions(DnsNames(Bare(name)), l) <==> l != "" && Fold(name) == l
    ensures !Mentions(Hostnames(Bare(name)), l)
  {
    assert DnsNames(Bare(name))[0] == name && Hostnames(Bare(name)) == [];
    assert Fold("") == "";
  }

  function ToHost(name: string): Address { Address(name, name, "", false, true) }

  ghost predicate PlainBare(p: Placed) {
    p.svc == Bare(p.svc.name) && Fold(p.svc.name) == p.svc.name
  }

  ghost predicate HasNamed(placed: seq<Placed>, name: string, k: string) {
    exists p :: p in placed && p.Key() == k && p.svc.name == name
  }

  lemma NothingIsHosted(placed: seq<Placed>, host: string)
    requires forall p :: p in placed ==> PlainBare(p)
    ensures !Hosted(placed, host)
  {
    forall p | p in placed ensures !Mentions(Hostnames(p.svc), Fold(host)) { BareMentions(p.svc.name, Fold(host)); }
  }

  lemma NamesAreBorne(placed: seq<Placed>, name: string, k: string)
    requires name != "" && Fold(name) == name && forall p :: p in placed ==> PlainBare(p)
    ensures Bears(placed, ToHost(name), k) <==> HasNamed(placed, name, k)
  {
    forall p | p in placed ensures Mentions(DnsNames(p.svc), Fold(name)) <==> p.svc.name == name { BareMentions(p.svc.name, Fold(name)); }
  }

  /** Among services with nothing but plain names, a plain name reaches the one that bears it. */
  lemma PlainReached(placed: seq<Placed>, name: string, k: string)
    requires name != "" && Fold(name) == name && forall p :: p in placed ==> PlainBare(p)
    ensures Reached(placed, ToHost(name), k) <==> HasNamed(placed, name, k)
  {
    NothingIsHosted(placed, name);
    NamesAreBorne(placed, name, k);
  }

  lemma PairIsPlain()
    ensures forall p :: p in Pair() ==> PlainBare(p)
  {
    PlainNames("web");
    PlainNames("db");
  }

  function ByRawName(): Outside { Outside((raw: string) => ToHost(raw), (name: string) => name) }

  function Forwards(host: string): Provider { Provider(host, Proxy, host, "", false, [], false, []) }

  function Forwarded(): Application { Application("", "", "", "", [Forwards("gone"), Forwards("web")], true) }

  lemma ForwardedHosts()
    ensures InternalHosts(Forwarded().providers) == ["gone", "web"]
  {
    var ps := Forwarded().providers;
    PlainNames("gone");
    PlainNames("web");
    assert Trim("gone") != "" && Trim("web") != "";
    assert ps[..1] == [Forwards("gone")] && ps[..1][..0] == [];
    assert InternalHosts(ps[..1]) == ["gone"];
  }

  lemma OnlyFirstIsWeb(k: string)
    ensures HasNamed(Pair(), "web", k) <==> k == Pair()[0].Key()
    ensures !HasNamed(Pair(), "gone", k)
  {
    assert "web"[0] != "db"[0] && "gone"[0] != "web"[0] && "gone"[0] != "db"[0];
    assert Pair()[0] in Pair() && Pair()[0].svc.name == "web";
  }

  lemma OnlyWebAnswers(k: string)
    ensures Reached(Pair(), ToHost("web"), k) <==> k == Pair()[0].Key()
    ensures !Reached(Pair(), ToHost("gone"), k)
  {
    PairIsPlain();
    PlainNames("web");
    PlainNames("gone");
    PlainReached(Pair(), "web", k);
    PlainReached(Pair(), "gone", k);
    OnlyFirstIsWeb(k);
  }

  lemma ForwardedOffers(k: string)
    ensures Offered(["gone", "web"], ByUrlOf(ByRawName(), IndexOf(Pair())), k) <==> k == Pair()[0].Key()
  {
    OnlyWebAnswers(k);
    OfferedOfTwo(["gone", "web"], ByUrlOf(ByRawName(), IndexOf(Pair())), k);
    URLIsReached(Pair(), ToHost("gone"), k);
    URLIsReached(Pair(), ToHost("web"), k);
  }

  /** An application tied by the second address it forwards to, with the first cited, which nobody answers. */
  lemma CitedAddressMayBeSilent() returns (o: Outside, placed: seq<Placed>, app: Application, k: string)
    ensures WellNamed(placed) && RuleInternalHost(o, IndexOf(placed), app) == Found(k, AddressMatch, "gone")
    ensures forall j :: !Reached(placed, o.parse("gone"), j)
  {
    o, placed, app, k := ByRawName(), Pair(), Forwarded(), Pair()[0].Key();
    PairIsNamed();
    ForwardedHosts();
    forall j ensures !Reached(placed, ToHost("gone"), j) { OnlyWebAnswers(j); }
    forall j ensures Offered(["gone", "web"], ByUrlOf(o, IndexOf(placed)), j) <==> j == k { ForwardedOffers(j); }
    AddressRuleMeans(o, IndexOf(placed), app, k);
  }

  lemma OfferedOfTwo(asked: seq<string>, lookup: string -> seq<string>, k: string)
    requires |asked| == 2
    ensures Offered(asked, lookup, k) <==> k in lookup(asked[0]) || k in lookup(asked[1])
  {
    assert asked[0] in asked && asked[1] in asked;
  }

  // ---------------------------------------------------------------------------
  // Only scanned services are matched
  // ---------------------------------------------------------------------------

  ghost predicate IsPlaced(placed: seq<Placed>, k: string) { exists p :: p in placed && p.Key() == k }

  lemma AddressesArePlaced(o: Outside, placed: seq<Placed>, asked: seq<string>, k: string)
    requires Offered(asked, ByUrlOf(o, IndexOf(placed)), k) || Offered(asked, ByBareNameOf(o, IndexOf(placed)), k)
    ensures IsPlaced(placed, k)
  {
    if a :| a in asked && k in ByUrlOf(o, IndexOf(placed))(a) {
      URLIsReached(placed, o.parse(a), k);
      if Hosted(placed, o.parse(a).host) {
        assert Hosts(placed, o.parse(a).host, k);
      } else {
        assert Bears(placed, o.parse(a), k);
      }
    } else {
      var a :| a in asked && k in ByBareNameOf(o, IndexOf(placed))(a);
      LookupsAgreeWithTheFleet(placed, o.parse(a).host, k);
    }
  }

  lemma HostnamesArePlaced(placed: seq<Placed>, asked: seq<string>, k: string)
    requires Offered(asked, ByHostnameOf(IndexOf(placed)), k)
    ensures IsPlaced(placed, k)
  {
    var a :| a in asked && k in ByHostnameOf(IndexOf(placed))(a);
    AddressLookupsAgree(placed, a, k);
  }

  lemma NamesArePlaced(o: Outside, placed: seq<Placed>, app: Application)
    requires RuleName(o, NamesOf(placed), app).Found?
    ensures IsPlaced(placed, RuleName(o, NamesOf(placed), app).key)
  {
    var t := Trials(o, app)[FirstEntry(NamesOf(placed), Trials(o, app))];
    EntriesAre(placed, t, Entries(NamesOf(placed), t)[0]);
  }

  lemma FoundIsOffered(asked: seq<string>, lookup: string -> seq<string>, strength: Strength, evidence: string, otherwise: Result)
    requires !otherwise.Found? && Decided(Gathered(asked, lookup), strength, evidence, otherwise).Found?
    ensures Offered(asked, lookup, Decided(Gathered(asked, lookup), strength, evidence, otherwise).key)
  {
    GatheredHas(asked, lookup, Gathered(asked, lookup)[0]);
  }

  /** Whatever rule finds it, a matched service is one of those scanned. */
  lemma MatchIsPlaced(o: Outside, placed: seq<Placed>, app: Application)
    ensures var m := Match(o, IndexOf(placed), NamesOf(placed), app); m.Some? ==> IsPlaced(placed, m.value.key)
  {
    var ix := IndexOf(placed);
    var hosts, h := InternalHosts(app.providers), HandedOutURLs(app);
    var named := HostnamesIn(o, h.urls);
    if RuleInternalHost(o, ix, app).Found? {
      FoundIsOffered(hosts, ByUrlOf(o, ix), AddressMatch, hosts[0], NoCandidate);
      AddressesArePlaced(o, placed, hosts, RuleInternalHost(o, ix, app).key);
    } else if RuleURLHost(o, ix, app).Found? {
      FoundIsOffered(h.urls, ByBareNameOf(o, ix), AddressMatch, FirstAnswered(h.urls, ByBareNameOf(o, ix)),
                     if AnyBlocked(o, h.urls) then Blocked else NoCandidate);
      AddressesArePlaced(o, placed, h.urls, RuleURLHost(o, ix, app).key);
    } else if RuleHostname(o, ix, app).Found? {
      FoundIsOffered(named, ByHostnameOf(ix), HostnameMatch, FirstAnswered(named, ByHostnameOf(ix)), NoCandidate);
      HostnamesArePlaced(placed, named, RuleHostname(o, ix, app).key);
    } else if RuleName(o, NamesOf(placed), app).Found? {
      NamesArePlaced(o, placed, app);
    }
  }

  lemma {:induction false} VerdictsArePlaced(o: Outside, placed: seq<Placed>, apps: seq<Application>)
    ensures forall v :: v in Verdicts(o, IndexOf(placed), NamesOf(placed), apps) ==>
      Sensible(v) && (v.result.Some? ==> v.result.value.key in Keys(placed))
  {
    if apps != [] {
      var last := apps[|apps| - 1];
      VerdictsArePlaced(o, placed, apps[..|apps| - 1]);
      MatchIsPlaced(o, placed, last);
      var m := Match(o, IndexOf(placed), NamesOf(placed), last);
      if m.Some? {
        KeyIsListed(placed, m.value.key);
      }
    }
  }

  lemma KeyIsListed(placed: seq<Placed>, k: string)
    requires IsPlaced(placed, k)
    ensures k in Keys(placed)
  {
    var p :| p in placed && p.Key() == k;
    var i :| 0 <= i < |placed| && placed[i] == p;
    assert Keys(placed)[i] == k;
  }

  /** Over the scanned services, the matched and the unmatched applications together are all of them. */
  lemma ApplicationsAreConserved(o: Outside, placed: seq<Placed>, apps: seq<Application>)
    requires WellNamed(placed)
    ensures var m := PlaceAll(Verdicts(o, IndexOf(placed), NamesOf(placed), apps)); Held(m, Keys(placed)) + |m.unmatched| == |apps|
  {
    KeysAreDistinct(placed);
    VerdictsArePlaced(o, placed, apps);
    VerdictsAreSensible(o, IndexOf(placed), NamesOf(placed), apps);
    HeldCounts(Verdicts(o, IndexOf(placed), NamesOf(placed), apps), Keys(placed));
  }
}
