/** Tying each application to at most one service (labview/internal/authentik/match.go): four rules in descending
    strength, each of which needs exactly one candidate. */
module AuthentikMatching {
  import opened Options
  import opened Text
  import opened Lists
  import opened Grouping
  import opened Fleet
  import opened FleetIndex
  import opened Vocabulary
  import opened AuthentikAccounts

  /** What the rules ask of code outside this model: taking an address apart, and stripping mechanism words. */
  datatype Outside = Outside(parse: string -> Address, strip: string -> string)

  // ---------------------------------------------------------------------------
  // Names, raw and tight
  // ---------------------------------------------------------------------------

  predicate IsNameChar(c: char) { 'a' <= c <= 'z' || '0' <= c <= '9' }

  function OnlyNameChars(s: string): string {
    if s == "" then "" else (if IsNameChar(s[0]) then [s[0]] else "") + OnlyNameChars(s[1..])
  }

  /** Everything that is a separator removed. */
  function Tighten(s: string): string { OnlyNameChars(Lower(s)) }

  function StackNames(p: Placed): seq<string> { [p.stackId, p.svc.name, p.svc.containerName] }

  /** Two lookups, kept apart: a derived key is only ever compared with derived keys. */
  datatype NameIndex = NameIndex(raw: map<string, seq<string>>, tight: map<string, seq<string>>)

  function TightKey(name: string): string { Tighten(Fold(name)) }

  function TightKeys(names: seq<string>): (r: seq<string>)
    ensures |r| == |names| && forall i :: 0 <= i < |names| ==> r[i] == TightKey(names[i])
  {
    seq(|names|, i requires 0 <= i < |names| => TightKey(names[i]))
  }

  function WithNames(n: NameIndex, names: seq<string>, key: string): NameIndex {
    NameIndex(RecordAll(n.raw, FoldKeys(names), "", key), RecordAll(n.tight, TightKeys(names), "", key))
  }

  function NamesOf(placed: seq<Placed>): NameIndex {
    if placed == [] then NameIndex(map[], map[])
    else WithNames(NamesOf(placed[..|placed| - 1]), StackNames(placed[|placed| - 1]), placed[|placed| - 1].Key())
  }

  method NewNameIndex(placed: seq<Placed>) returns (n: NameIndex)
    ensures n == NamesOf(placed)
  {
    n := NameIndex(map[], map[]);
    var i := 0;
    while i < |placed|
      invariant 0 <= i <= |placed| && n == NamesOf(placed[..i])
    {
      assert placed[..i + 1][..i] == placed[..i];
      n := AddNames(n, StackNames(placed[i]), placed[i].Key());
      i := i + 1;
    }
    assert placed[..i] == placed;
  }

  method AddNames(n0: NameIndex, names: seq<string>, key: string) returns (n: NameIndex)
    ensures n == WithNames(n0, names, key)
  {
    n := n0;
    ghost var raws, tights := FoldKeys(names), TightKeys(names);
    var i := 0;
    while i < |names|
      invariant 0 <= i <= |names|
      invariant n == NameIndex(RecordAll(n0.raw, raws[..i], "", key), RecordAll(n0.tight, tights[..i], "", key))
    {
      RecordAllStep(n0.raw, raws, "", key, i);
      RecordAllStep(n0.tight, tights, "", key, i);
      n := AddName(n, names[i], key);
      i := i + 1;
    }
    assert raws[..i] == raws && tights[..i] == tights;
  }

  /** `add`. */
  method AddName(n0: NameIndex, name: string, key: string) returns (n: NameIndex)
    ensures n == NameIndex(RecordIf(n0.raw, Fold(name), "", key), RecordIf(n0.tight, TightKey(name), "", key))
  {
    n := n0;
    var low := Fold(name);
    assert low == "" ==> Tighten(low) == "";
    if low == "" {
      return;
    }
    n := n.(raw := Record(n.raw, low, key));
    var t := Tighten(low);
    if t != "" {
      n := n.(tight := Record(n.tight, t, key));
    }
  }

  function RawPairs(p: Placed): Pairs { Recording(StackNames(p), p.Key()) }

  function TightPairs(p: Placed): Pairs { KeyPairs(TightKeys(StackNames(p)), "", p.Key()) }

  /** The two lookups are two groupings of the same names. */
  lemma {:induction false} NamesAreGrouped(placed: seq<Placed>)
    ensures NamesOf(placed) == NameIndex(GroupBy(FlatMap(placed, RawPairs)), GroupBy(FlatMap(placed, TightPairs)))
  {
    if placed != [] {
      var last, before := placed[|placed| - 1], placed[..|placed| - 1];
      NamesAreGrouped(before);
      RecordAllGroups(FlatMap(before, RawPairs), FoldKeys(StackNames(last)), "", last.Key());
      RecordAllGroups(FlatMap(before, TightPairs), TightKeys(StackNames(last)), "", last.Key());
    }
  }

  ghost predicate Called(p: Placed, folded: string) { folded != "" && exists n :: n in StackNames(p) && Fold(n) == folded }

  ghost predicate CalledTight(p: Placed, tight: string) { tight != "" && exists n :: n in StackNames(p) && TightKey(n) == tight }

  lemma KeysMention(p: Placed, l: string)
    ensures l != "" ==> (l in FoldKeys(StackNames(p)) <==> Called(p, l)) && (l in TightKeys(StackNames(p)) <==> CalledTight(p, l))
  {
    var names := StackNames(p);
    var raws, tights := FoldKeys(names), TightKeys(names);
    assert forall i :: 0 <= i < |names| ==> names[i] in names && raws[i] in raws && tights[i] in tights;
  }

  /** A name finds, each once, the services whose stack, compose or container name it is; in its own form only. */
  lemma NamesFindServices(placed: seq<Placed>, name: string, k: string)
    ensures var n := NamesOf(placed);
      && Distinct(Get(n.raw, name)) && Distinct(Get(n.tight, name))
      && (k in Get(n.raw, name) <==> exists p :: p in placed && p.Key() == k && Called(p, name))
      && (k in Get(n.tight, name) <==> exists p :: p in placed && p.Key() == k && CalledTight(p, name))
  {
    NamesAreGrouped(placed);
    LookupHas(FlatMap(placed, RawPairs), name);
    LookupHas(FlatMap(placed, TightPairs), name);
    FlatMapHas(placed, RawPairs, (name, k));
    FlatMapHas(placed, TightPairs, (name, k));
    forall p | p in placed
      ensures (name, k) in RawPairs(p) <==> p.Key() == k && Called(p, name)
      ensures (name, k) in TightPairs(p) <==> p.Key() == k && CalledTight(p, name)
    {
      KeyPairsHave(FoldKeys(StackNames(p)), "", p.Key(), name, k);
      KeyPairsHave(TightKeys(StackNames(p)), "", p.Key(), name, k);
      KeysMention(p, name);
    }
  }

  // ---------------------------------------------------------------------------
  // The rules
  // ---------------------------------------------------------------------------

  /** What one rule did, and on what. */
  datatype Result = Found(key: string, strength: Strength, evidence: string) | Contested(candidates: seq<string>)
                  | Blocked | NoCandidate | NoEvidence

  function AppendKeys(into: seq<string>, keys: seq<string>): seq<string> {
    if keys == [] then into else AppendOnce(AppendKeys(into, keys[..|keys| - 1]), keys[|keys| - 1])
  }

  /** Everything the lookups return, each once, in order. */
  function Gathered(asked: seq<string>, lookup: string -> seq<string>): seq<string> {
    if asked == [] then [] else AppendKeys(Gathered(asked[..|asked| - 1], lookup), lookup(asked[|asked| - 1]))
  }

  function FirstAnswered(asked: seq<string>, lookup: string -> seq<string>): string {
    if asked == [] then "" else if |lookup(asked[0])| > 0 then asked[0] else FirstAnswered(asked[1..], lookup)
  }

  function Decided(found: seq<string>, strength: Strength, evidence: string, otherwise: Result): Result {
    if |found| == 1 then Found(found[0], strength, evidence) else if |found| > 1 then Contested(found) else otherwise
  }

  function InternalHosts(ps: seq<Provider>): seq<string> {
    if ps == [] then [] else
      var p := ps[|ps| - 1];
      InternalHosts(ps[..|ps| - 1]) + (if p.kind.Proxy? && Trim(p.internalHost) != "" then [p.internalHost] else [])
  }

  function ByUrlOf(o: Outside, ix: Index): string -> seq<string> { (raw: string) => ByURL(ix, o.parse(raw)) }

  /** Rule 1: the address a proxy provider forwards to. */
  function RuleInternalHost(o: Outside, ix: Index, app: Application): Result {
    var hosts := InternalHosts(app.providers);
    if hosts == [] then NoEvidence
    else Decided(Gathered(hosts, ByUrlOf(o, ix)), AddressMatch, hosts[0], NoCandidate)
  }

  predicate Contains(s: string, sub: string) {
    |sub| <= |s| && (s[..|sub|] == sub || (s != "" && Contains(s[1..], sub)))
  }

  predicate IsTemplate(raw: string) { Contains(raw, "%(") || Contains(raw, "{{") || Contains(raw, "${") }

  /** What an application hands a browser, and how much of it was declined. */
  datatype HandedOut = HandedOut(urls: seq<string>, declined: nat)

  function FromRedirects(urls: seq<string>, redirects: seq<string>): seq<string> {
    if redirects == [] then urls else
      var u := Trim(redirects[|redirects| - 1]);
      var before := FromRedirects(urls, redirects[..|redirects| - 1]);
      if u == "" then before else AppendOnce(before, u)
  }

  function FromProvider(h: HandedOut, p: Provider): HandedOut {
    var host := Trim(p.externalHost);
    var h' :=
      if host == "" then h else if p.forwardDomain then h.(declined := h.declined + 1) else h.(urls := AppendOnce(h.urls, host));
    h'.(urls := FromRedirects(h'.urls, p.redirects))
  }

  function FromProviders(h: HandedOut, ps: seq<Provider>): HandedOut {
    if ps == [] then h else FromProvider(FromProviders(h, ps[..|ps| - 1]), ps[|ps| - 1])
  }

  /** A per-user launch URL and the shared domain of forward-domain mode are declined. */
  function HandedOutURLs(app: Application): HandedOut {
    var raw := Trim(app.launchURL);
    FromProviders(if raw == "" then HandedOut([], 0) else if IsTemplate(raw) then HandedOut([], 1) else HandedOut([raw], 0),
                  app.providers)
  }

  function ByBareNameOf(o: Outside, ix: Index): string -> seq<string> {
    (raw: string) => if o.parse(raw).host != "" && o.parse(raw).isBareName then ByName(ix, o.parse(raw).host) else []
  }

  predicate AnyBlocked(o: Outside, urls: seq<string>) { exists u :: u in urls && o.parse(u).host != "" && !o.parse(u).isBareName }

  /** Rule 2: a container name inside a URL it hands out; any other host there is declined. */
  function RuleURLHost(o: Outside, ix: Index, app: Application): Result {
    var h := HandedOutURLs(app);
    if h.urls == [] then (if h.declined > 0 then Blocked else NoEvidence)
    else Decided(Gathered(h.urls, ByBareNameOf(o, ix)), AddressMatch, FirstAnswered(h.urls, ByBareNameOf(o, ix)),
                 if AnyBlocked(o, h.urls) then Blocked else NoCandidate)
  }

  function HostnamesIn(o: Outside, urls: seq<string>): seq<string> {
    if urls == [] then [] else
      var a, before := o.parse(urls[|urls| - 1]), HostnamesIn(o, urls[..|urls| - 1]);
      if a.host != "" && !a.isIP then AppendOnce(before, a.host) else before
  }

  function ByHostnameOf(ix: Index): string -> seq<string> { (host: string) => ByHostname(ix, host) }

  /** Rule 3: a hostname in one of those URLs that a service declares. */
  function RuleHostname(o: Outside, ix: Index, app: Application): Result {
    var hosts := HostnamesIn(o, HandedOutURLs(app).urls);
    if hosts == [] then NoEvidence
    else Decided(Gathered(hosts, ByHostnameOf(ix)), HostnameMatch, FirstAnswered(hosts, ByHostnameOf(ix)), NoCandidate)
  }

  const MIN_DERIVED_KEY := 3

  /** One name in one form, and the lookup that form uses. */
  datatype Trial = Trial(raw: string, key: string, tight: bool)

  function TrialsIn(raws: seq<string>, derive: string -> string, tight: bool): (r: seq<Trial>)
    ensures |r| == |raws| && forall i :: 0 <= i < |raws| ==> r[i] == Trial(raws[i], derive(raws[i]), tight)
  {
    seq(|raws|, i requires 0 <= i < |raws| => Trial(raws[i], derive(raws[i]), tight))
  }

  function CandidateNames(app: Application): (r: seq<string>)
    ensures |r| == |app.providers| + 2
  {
    [app.slug, app.name] + seq(|app.providers|, i requires 0 <= i < |app.providers| => app.providers[i].name)
  }

  /** As written, with separators removed, with mechanism words removed: form by form, every name in each. */
  function Trials(o: Outside, app: Application): seq<Trial> {
    TrialsIn(CandidateNames(app), Fold, false) + TrialsIn(CandidateNames(app), Tighten, true) + TrialsIn(CandidateNames(app), o.strip, true)
  }

  function Entries(names: NameIndex, t: Trial): seq<string> {
    if |t.key| < MIN_DERIVED_KEY then [] else Get(if t.tight then names.tight else names.raw, t.key)
  }

  /** Where the first trial with any entry stands, or the length. */
  function FirstEntry(names: NameIndex, ts: seq<Trial>): (i: nat)
    ensures i <= |ts| && (i < |ts| ==> Entries(names, ts[i]) != []) && forall j :: 0 <= j < i ==> Entries(names, ts[j]) == []
  {
    if ts == [] || Entries(names, ts[0]) != [] then 0 else 1 + FirstEntry(names, ts[1..])
  }

  /** Rule 4: the first name in any form with any entry decides, either way. */
  function RuleName(o: Outside, names: NameIndex, app: Application): Result {
    var ts := Trials(o, app);
    var i := FirstEntry(names, ts);
    if i < |ts| then
      var found := Entries(names, ts[i]);
      if |found| > 1 then Contested(found) else Found(found[0], NameMatch, ts[i].raw)
    else if forall t :: t in ts ==> |t.key| < MIN_DERIVED_KEY then NoEvidence
    else NoCandidate
  }

  function FirstFound(a: Result, b: Result, c: Result, d: Result): (m: Option<Result>)
    ensures m.Some? ==> m.value.Found?
  {
    if a.Found? then Some(a) else if b.Found? then Some(b) else if c.Found? then Some(c) else if d.Found? then Some(d) else None
  }

  /** The first rule that found exactly one service, or none. A contested or blocked rule does not stop the others. */
  function Match(o: Outside, ix: Index, names: NameIndex, app: Application): (m: Option<Result>)
    ensures m.Some? ==> m.value.Found?
  {
    FirstFound(RuleInternalHost(o, ix, app), RuleURLHost(o, ix, app), RuleHostname(o, ix, app), RuleName(o, names, app))
  }

  // ---------------------------------------------------------------------------
  // The rules as loops
  // ---------------------------------------------------------------------------

  method Gather(asked: seq<string>, lookup: string -> seq<string>) returns (found: seq<string>)
    ensures found == Gathered(asked, lookup)
  {
    found := [];
    var i := 0;
    while i < |asked|
      invariant 0 <= i <= |asked| && found == Gathered(asked[..i], lookup)
    {
      assert asked[..i + 1][..i] == asked[..i];
      found := AppendAll(found, lookup(asked[i]));
      i := i + 1;
    }
    assert asked[..i] == asked;
  }

  /** `appendKeys`. */
  method AppendAll(into: seq<string>, keys: seq<string>) returns (out: seq<string>)
    ensures out == AppendKeys(into, keys)
  {
    out := into;
    var i := 0;
    while i < |keys|
      invariant 0 <= i <= |keys| && out == AppendKeys(into, keys[..i])
    {
      assert keys[..i + 1][..i] == keys[..i];
      out := AppendOnce(out, keys[i]);
      i := i + 1;
    }
    assert keys[..i] == keys;
  }

  method NameRule(o: Outside, names: NameIndex, app: Application) returns (r: Result)
    ensures r == RuleName(o, names, app)
  {
    var ts := Trials(o, app);
    var i, tried := SearchNames(names, ts);
    if i < |ts| {
      var found := Entries(names, ts[i]);
      return if |found| > 1 then Contested(found) else Found(found[0], NameMatch, ts[i].raw);
    }
    r := if tried then NoCandidate else NoEvidence;
  }

  method SearchNames(names: NameIndex, ts: seq<Trial>) returns (i: nat, tried: bool)
    ensures i == FirstEntry(names, ts)
    ensures i == |ts| ==> (!tried <==> forall t :: t in ts ==> |t.key| < MIN_DERIVED_KEY)
  {
    i, tried := 0, false;
    while i < |ts|
      invariant 0 <= i <= |ts| && forall j :: 0 <= j < i ==> Entries(names, ts[j]) == []
      invariant !tried <==> forall t :: t in ts[..i] ==> |t.key| < MIN_DERIVED_KEY
    {
      assert ts[..i + 1] == ts[..i] + [ts[i]];
      tried := tried || |ts[i].key| >= MIN_DERIVED_KEY;
      if Entries(names, ts[i]) != [] {
        FirstEntryIs(names, ts, i);
        return;
      }
      i := i + 1;
    }
    FirstEntryIs(names, ts, i);
    assert ts[..i] == ts;
  }

  lemma FirstEntryIs(names: NameIndex, ts: seq<Trial>, i: nat)
    requires i <= |ts| && (i < |ts| ==> Entries(names, ts[i]) != []) && forall j :: 0 <= j < i ==> Entries(names, ts[j]) == []
    ensures FirstEntry(names, ts) == i
  {
  }

  method InternalHostRule(o: Outside, ix: Index, app: Application) returns (r: Result)
    ensures r == RuleInternalHost(o, ix, app)
  {
    var hosts := InternalHosts(app.providers);
    if hosts == [] {
      return NoEvidence;
    }
    var found := Gather(hosts, ByUrlOf(o, ix));
    r := Decided(found, AddressMatch, hosts[0], NoCandidate);
  }

  method URLHostRule(o: Outside, ix: Index, app: Application) returns (r: Result)
    ensures r == RuleURLHost(o, ix, app)
  {
    var h := HandedOutURLs(app);
    if h.urls == [] {
      return if h.declined > 0 then Blocked else NoEvidence;
    }
    var found := Gather(h.urls, ByBareNameOf(o, ix));
    r := Decided(found, AddressMatch, FirstAnswered(h.urls, ByBareNameOf(o, ix)), if AnyBlocked(o, h.urls) then Blocked else NoCandidate);
  }

  method HostnameRule(o: Outside, ix: Index, app: Application) returns (r: Result)
    ensures r == RuleHostname(o, ix, app)
  {
    var hosts := HostnamesIn(o, HandedOutURLs(app).urls);
    if hosts == [] {
      return NoEvidence;
    }
    var found := Gather(hosts, ByHostnameOf(ix));
    r := Decided(found, HostnameMatch, FirstAnswered(hosts, ByHostnameOf(ix)), NoCandidate);
  }

  // ---------------------------------------------------------------------------
  // The trace
  // ---------------------------------------------------------------------------

  /** One line of the trace: that the record was rebuilt, or what a rule did. */
  datatype TraceLine = WasRebuilt | Tried(result: Result)

  /** The results up to the first that found a service, that one included. */
  function TraceFrom(start: seq<TraceLine>, a: Result, b: Result, c: Result, d: Result): seq<TraceLine> {
    if a.Found? then start + [Tried(a)]
    else if b.Found? then start + [Tried(a), Tried(b)]
    else if c.Found? then start + [Tried(a), Tried(b), Tried(c)]
    else start + [Tried(a), Tried(b), Tried(c), Tried(d)]
  }

  function Start(app: Application): seq<TraceLine> { if app.listed then [] else [WasRebuilt] }

  function Trace(o: Outside, ix: Index, names: NameIndex, app: Application): seq<TraceLine> {
    TraceFrom(Start(app), RuleInternalHost(o, ix, app), RuleURLHost(o, ix, app), RuleHostname(o, ix, app), RuleName(o, names, app))
  }

  /** The rules in order, until one finds a service; a rule that could not run leaves its line too. */
  method FindMatch(o: Outside, ix: Index, names: NameIndex, app: Application) returns (m: Option<Result>, trace: seq<TraceLine>)
    ensures m == Match(o, ix, names, app) && trace == Trace(o, ix, names, app)
  {
    trace := Start(app);
    var a := InternalHostRule(o, ix, app);
    if a.Found? {
      return Some(a), trace + [Tried(a)];
    }
    var b := URLHostRule(o, ix, app);
    if b.Found? {
      return Some(b), trace + [Tried(a), Tried(b)];
    }
    var c := HostnameRule(o, ix, app);
    if c.Found? {
      return Some(c), trace + [Tried(a), Tried(b), Tried(c)];
    }
    var d := NameRule(o, names, app);
    m, trace := if d.Found? then Some(d) else None, trace + [Tried(a), Tried(b), Tried(c), Tried(d)];
  }

  // ---------------------------------------------------------------------------
  // Why it was not matched
  // ---------------------------------------------------------------------------

  /** `ambiguous` is the reason; the detail is the line of one rule, or a general one. */
  datatype Unmatched = Unmatched(app: Application, ambiguous: bool, detail: Option<Result>, considered: seq<TraceLine>)

  function FirstLine(trace: seq<TraceLine>, p: Result -> bool): Option<Result> {
    if trace == [] then None
    else if trace[0].Tried? && p(trace[0].result) then Some(trace[0].result)
    else FirstLine(trace[1..], p)
  }

  function IsContested(): Result -> bool { (r: Result) => r.Contested? }

  function IsBlocked(): Result -> bool { (r: Result) => r.Blocked? }

  /** The strongest thing that went wrong: the first contested rule, else the first blocked one. */
  function Explained(app: Application, trace: seq<TraceLine>): Unmatched {
    var contested, blocked := FirstLine(trace, IsContested()), FirstLine(trace, IsBlocked());
    Unmatched(app, contested.Some?, if contested.Some? then contested else blocked, trace)
  }

  method Explain(app: Application, trace: seq<TraceLine>) returns (u: Unmatched)
    ensures u == Explained(app, trace)
  {
    var contested: Option<Result>, blocked: Option<Result> := None, None;
    var i := 0;
    assert trace[0..] == trace;
    while i < |trace|
      invariant 0 <= i <= |trace|
      invariant FirstLine(trace, IsContested()) == if contested.Some? then contested else FirstLine(trace[i..], IsContested())
      invariant FirstLine(trace, IsBlocked()) == if blocked.Some? then blocked else FirstLine(trace[i..], IsBlocked())
    {
      assert trace[i..][1..] == trace[i + 1..];
      if trace[i].Tried? {
        var r := trace[i].result;
        if r.Contested? && contested.None? {
          contested := Some(r);
        } else if r.Blocked? && blocked.None? {
          blocked := Some(r);
        }
      }
      i := i + 1;
    }
    u := Unmatched(app, contested.Some?, if contested.Some? then contested else blocked, trace);
  }

  // ---------------------------------------------------------------------------
  // The whole match
  // ---------------------------------------------------------------------------

  /** The matches, the posture accounts they support and the notes they leave, by service; and what was not matched. */
  datatype Matches = Matches(byService: map<string, AuthentikMatch>, accounts: map<string, seq<Account>>, notes: map<string, seq<MatchNote>>,
                             unmatched: seq<Unmatched>)

  const NO_MATCHES := Matches(map[], map[], map[], [])

  const NOTHING := AuthentikMatch([], [], [])

  function At(m: Matches, key: string): AuthentikMatch { if key in m.byService then m.byService[key] else NOTHING }

  function With(m: AuthentikMatch, app: Application, r: Result): AuthentikMatch
    requires r.Found?
  {
    AuthentikMatch(m.applications + [app], m.evidence + [r.evidence], m.strength + [r.strength])
  }

  /** What the rules concluded about one application, and what follows of the service it was tied to. */
  datatype Verdict = Verdict(app: Application, result: Option<Result>, trace: seq<TraceLine>, accounts: seq<Account>, notes: seq<MatchNote>)

  predicate Sensible(v: Verdict) { v.result.Some? ==> v.result.value.Found? }

  function Appended<V>(m: map<string, seq<V>>, key: string, vs: seq<V>): map<string, seq<V>> { m[key := Get(m, key) + vs] }

  function Place(m: Matches, v: Verdict): Matches
    requires Sensible(v)
  {
    match v.result
    case None => m.(unmatched := m.unmatched + [Explained(v.app, v.trace)])
    case Some(found) =>
      Matches(m.byService[found.key := With(At(m, found.key), v.app, found)], Appended(m.accounts, found.key, v.accounts),
              Appended(m.notes, found.key, v.notes), m.unmatched)
  }

  function AccountsOf(app: Application, m: Option<Result>): seq<Account>
    requires m.Some? ==> m.value.Found?
  {
    if m.None? then [] else FlatMap(app.providers, Says(app, m.value.strength, m.value.evidence))
  }

  function NotesOn(o: Outside, ix: Index, app: Application, m: Option<Result>): seq<MatchNote>
    requires m.Some? ==> m.value.Found?
  {
    if m.None? then [] else FlatMap(app.providers, Lacks(app)) + PastOutposts(o.parse, ix, m.value.key, app)
  }

  function VerdictOn(o: Outside, ix: Index, names: NameIndex, app: Application): Verdict {
    var m := Match(o, ix, names, app);
    Verdict(app, m, Trace(o, ix, names, app), AccountsOf(app, m), NotesOn(o, ix, app, m))
  }

  function Verdicts(o: Outside, ix: Index, names: NameIndex, apps: seq<Application>): seq<Verdict> {
    if apps == [] then [] else
      Verdicts(o, ix, names, apps[..|apps| - 1]) + [VerdictOn(o, ix, names, apps[|apps| - 1])]
  }

  function PlaceAll(vs: seq<Verdict>): Matches {
    if vs == [] then NO_MATCHES
    else
      var v, before := vs[|vs| - 1], PlaceAll(vs[..|vs| - 1]);
      if Sensible(v) then Place(before, v) else before
  }

  lemma PlaceAllAppend(vs: seq<Verdict>, v: Verdict)
    requires Sensible(v)
    ensures PlaceAll(vs + [v]) == Place(PlaceAll(vs), v)
  {
    assert (vs + [v])[..|vs|] == vs;
  }

  lemma OneMoreVerdict(o: Outside, ix: Index, names: NameIndex, apps: seq<Application>, i: nat)
    requires i < |apps|
    ensures Verdicts(o, ix, names, apps[..i + 1]) == Verdicts(o, ix, names, apps[..i]) + [VerdictOn(o, ix, names, apps[i])]
  {
    assert apps[..i + 1][..i] == apps[..i];
  }

  method Apply(o: Outside, ix: Index, apps: seq<Application>) returns (m: Matches)
    ensures m == PlaceAll(Verdicts(o, ix, NamesOf(ix.placed), apps))
  {
    var names := NewNameIndex(ix.placed);
    m := NO_MATCHES;
    var i := 0;
    while i < |apps|
      invariant 0 <= i <= |apps| && m == PlaceAll(Verdicts(o, ix, names, apps[..i]))
    {
      OneMoreVerdict(o, ix, names, apps, i);
      m := ApplyOne(m, o, ix, names, apps[i], Verdicts(o, ix, names, apps[..i]));
      i := i + 1;
    }
    assert apps[..i] == apps;
  }

  /** The body of that loop. */
  method ApplyOne(m: Matches, o: Outside, ix: Index, names: NameIndex, app: Application, ghost before: seq<Verdict>) returns (out: Matches)
    requires m == PlaceAll(before)
    ensures out == PlaceAll(before + [VerdictOn(o, ix, names, app)])
  {
    var found, trace := FindMatch(o, ix, names, app);
    PlaceAllAppend(before, VerdictOn(o, ix, names, app));
    if found.None? {
      var u := Explain(app, trace);
      out := m.(unmatched := m.unmatched + [u]);
    } else {
      var key := found.value.key;
      var accounts, unenforced := AccountsFor(app, found.value.strength, found.value.evidence);
      var past := UnpassedOutposts(o.parse, ix, key, app);
      out := Matches(m.byService[key := With(At(m, key), app, found.value)], Appended(m.accounts, key, accounts),
                     Appended(m.notes, key, unenforced + past), m.unmatched);
    }
  }
}
