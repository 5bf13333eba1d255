/** What the dependency walk of Depends amounts to, against the fleet it was given. */
module DependencyLaws {
  import opened Options
  import opened Lists
  import opened Grouping
  import opened Fleet
  import opened FleetIndex
  import opened Depends
  import N = Networks

  // ---------------------------------------------------------------------------
  // What a reference means
  // ---------------------------------------------------------------------------

  /** `ref`, written by `p`, means the service of key `k`: another service, and either the one a qualified reference
      spells out, or a sibling of that name, or the only service of that name in the whole fleet. */
  ghost predicate Meant(placed: seq<Placed>, p: Placed, ref: string, k: string) {
    k != p.Key() && exists q :: q in placed && q.Key() == k && Fits(placed, p, ref, q)
  }

  ghost predicate Fits(placed: seq<Placed>, p: Placed, ref: string, q: Placed) {
    match CutRef(ref)
    case Some((stack, name)) => q.stackId == stack && q.svc.name == name
    case None => q.svc.name == ref && (q.stackId == p.stackId || Sole(placed, ref, q.Key()))
  }

  ghost predicate Sole(placed: seq<Placed>, name: string, key: string) {
    forall o :: o in placed && o.svc.name == name ==> o.Key() == key
  }

  lemma HasIs(placed: seq<Placed>, key: string)
    ensures Has(IndexOf(placed), key) <==> exists q :: q in placed && q.Key() == key
  {
    if key in Keys(placed) {
      var i :| 0 <= i < |placed| && Keys(placed)[i] == key;
      assert placed[i] in placed;
    }
    if q :| q in placed && q.Key() == key {
      var i :| 0 <= i < |placed| && placed[i] == q;
      assert Keys(placed)[i] == key;
    }
  }

  lemma {:induction false} NamedIs(keys: seq<string>, name: string, source: string)
    ensures forall k :: k in Named(keys, name, source) <==> k in keys && SplitKey(k).1 == name && k != source
    ensures Distinct(keys) ==> Distinct(Named(keys, name, source))
  {
    if keys != [] {
      SplitLast(keys);
      NamedIs(keys[..|keys| - 1], name, source);
    }
  }

  /** The candidates for a bare name are the other services of that name, each once. */
  lemma CandidatesAre(placed: seq<Placed>, name: string, source: string)
    requires WellNamed(placed)
    ensures var c := Named(Keys(placed), name, source);
      Distinct(c) && forall k :: k in c <==> k != source && exists q :: q in placed && q.Key() == k && q.svc.name == name
  {
    var c := Named(Keys(placed), name, source);
    KeysAreDistinct(placed);
    NamedIs(Keys(placed), name, source);
    forall k ensures k in c <==> k != source && exists q :: q in placed && q.Key() == k && q.svc.name == name {
      HasIs(placed, k);
      forall q | q in placed ensures SplitKey(q.Key()).1 == q.svc.name { SplitOfKey(q.stackId, q.svc.name); }
    }
  }

  lemma QualifiedMeans(placed: seq<Placed>, p: Placed, ref: string, k: string)
    requires WellNamed(placed) && CutRef(ref).Some?
    ensures Resolve(IndexOf(placed), p.Key(), p.stackId, ref) == Target(k) <==> Meant(placed, p, ref, k)
  {
    var (stack, name) := CutRef(ref).value;
    var key := ServiceKey(stack, name);
    assert '/' !in stack;
    SplitOfKey(stack, name);
    HasIs(placed, key);
    forall q | q in placed ensures q.Key() == key <==> q.stackId == stack && q.svc.name == name {
      SplitOfKey(q.stackId, q.svc.name);
    }
  }

  lemma SiblingMeans(placed: seq<Placed>, p: Placed, ref: string, k: string)
    requires WellNamed(placed) && CutRef(ref).None? && (p.stackId, ref) in IndexOf(placed).inStack
    ensures Resolve(IndexOf(placed), p.Key(), p.stackId, ref) == Target(k) <==> Meant(placed, p, ref, k)
  {
    InStackIs(placed, p.stackId, ref);
    var sibling :| sibling in placed && sibling.stackId == p.stackId && sibling.svc.name == ref;
    assert forall q :: q in placed && Fits(placed, p, ref, q) ==> q.Key() == sibling.Key();
    assert Fits(placed, p, ref, sibling);
  }

  /** With no sibling of that name, the candidates are every service of that name. */
  lemma EveryCandidate(placed: seq<Placed>, p: Placed, name: string)
    requires WellNamed(placed) && p in placed && (p.stackId, name) !in IndexOf(placed).inStack
    ensures var c := Named(Keys(placed), name, p.Key());
      Distinct(c) && forall k :: k in c <==> exists q :: q in placed && q.Key() == k && q.svc.name == name
  {
    InStackIs(placed, p.stackId, name);
    CandidatesAre(placed, name, p.Key());
    forall q | q in placed && q.svc.name == name ensures q.Key() != p.Key() {
      SplitOfKey(q.stackId, q.svc.name);
      SplitOfKey(p.stackId, p.svc.name);
    }
  }

  ghost predicate NamesOnly(placed: seq<Placed>, name: string, k: string) {
    (exists q :: q in placed && q.Key() == k && q.svc.name == name) && Sole(placed, name, k)
  }

  lemma BareFits(placed: seq<Placed>, p: Placed, ref: string, k: string)
    requires WellNamed(placed) && p in placed && CutRef(ref).None? && (p.stackId, ref) !in IndexOf(placed).inStack
    ensures Meant(placed, p, ref, k) <==> NamesOnly(placed, ref, k)
  {
    InStackIs(placed, p.stackId, ref);
    SplitOfKey(p.stackId, p.svc.name);
    forall q | q in placed && q.Key() == p.Key() ensures q.svc.name != ref {
      SplitOfKey(q.stackId, q.svc.name);
    }
  }

  lemma SingleCandidate(placed: seq<Placed>, name: string, c: seq<string>, k: string)
    requires Distinct(c) && forall x :: x in c <==> exists q :: q in placed && q.Key() == x && q.svc.name == name
    ensures |c| == 1 && c[0] == k <==> NamesOnly(placed, name, k)
  {
    if |c| == 1 && c[0] == k {
      assert k in c;
      forall o | o in placed && o.svc.name == name ensures o.Key() == k {
        assert o.Key() in c;
      }
    }
    if NamesOnly(placed, name, k) {
      assert k in c;
      forall x | x in c ensures x == k {
        var q :| q in placed && q.Key() == x && q.svc.name == name;
      }
      OnlyOne(c, k);
    }
  }

  lemma BareMeans(placed: seq<Placed>, p: Placed, ref: string, k: string)
    requires WellNamed(placed) && p in placed && CutRef(ref).None? && (p.stackId, ref) !in IndexOf(placed).inStack
    ensures Resolve(IndexOf(placed), p.Key(), p.stackId, ref) == Target(k) <==> Meant(placed, p, ref, k)
  {
    EveryCandidate(placed, p, ref);
    SingleCandidate(placed, ref, Named(Keys(placed), ref, p.Key()), k);
    BareFits(placed, p, ref, k);
  }

  /** A declared reference resolves to a service exactly when it means that service. */
  lemma ReferenceMeansOneService(placed: seq<Placed>, p: Placed, ref: string, k: string)
    requires WellNamed(placed) && p in placed
    ensures Resolve(IndexOf(placed), p.Key(), p.stackId, ref) == Target(k) <==> Meant(placed, p, ref, k)
  {
    if CutRef(ref).Some? {
      QualifiedMeans(placed, p, ref, k);
    } else if (p.stackId, ref) in IndexOf(placed).inStack {
      SiblingMeans(placed, p, ref, k);
    } else {
      BareMeans(placed, p, ref, k);
    }
  }

  lemma SeveralIsBare(ix: Index, source: string, stackId: string, ref: string)
    ensures var r := Resolve(ix, source, stackId, ref);
      r.Refuse? && r.reason.SeveralServices? ==>
        CutRef(ref).None? && (stackId, ref) !in ix.inStack && |r.considered| >= 2 && r.considered == Named(Keys(ix.placed), ref, source)
  {
  }

  /** A refusal for several services carries at least two candidates, and they are all the services of that name. */
  lemma RefusalIsAnswerable(placed: seq<Placed>, p: Placed, ref: string, c: seq<string>)
    requires WellNamed(placed) && p in placed
    requires Resolve(IndexOf(placed), p.Key(), p.stackId, ref) == Refuse(SeveralServices, c)
    ensures |c| >= 2 && Distinct(c)
    ensures forall k :: k in c <==> exists q :: q in placed && q.Key() == k && q.svc.name == ref
  {
    SeveralIsBare(IndexOf(placed), p.Key(), p.stackId, ref);
    EveryCandidate(placed, p, ref);
  }

  // ---------------------------------------------------------------------------
  // What the merge keeps
  // ---------------------------------------------------------------------------

  ghost predicate PairsDiffer(resolved: seq<Dependency>) {
    forall i, j :: 0 <= i < j < |resolved| ==> resolved[i].Pair() != resolved[j].Pair()
  }

  ghost predicate Claimed(os: seq<Outcome>, pair: (string, string)) {
    exists c :: Claims(c) in os && c.Pair() == pair
  }

  ghost predicate ClaimedObserved(os: seq<Outcome>, pair: (string, string)) {
    exists c :: Claims(c) in os && c.Pair() == pair && c.observed
  }

  ghost predicate ClaimedDeclared(os: seq<Outcome>, pair: (string, string)) {
    exists c :: Claims(c) in os && c.Pair() == pair && c.declared
  }

  /** One entry against the claims on its pair. */
  ghost predicate Faithful(nets: N.Index, os: seq<Outcome>, d: Dependency) {
    && Claimed(os, d.Pair()) && d.via == N.Shared(nets, d.source, d.target)
    && (d.observed <==> ClaimedObserved(os, d.Pair())) && (d.declared <==> ClaimedDeclared(os, d.Pair()))
  }

  ghost predicate Standing(resolved: seq<Dependency>, pair: (string, string)) {
    exists d :: d in resolved && d.Pair() == pair
  }

  lemma StillFaithful(nets: N.Index, os: seq<Outcome>, o: Outcome, d: Dependency)
    requires Faithful(nets, os, d) && (o.Claims? ==> o.dep.Pair() != d.Pair())
    ensures Faithful(nets, os + [o], d)
  {
    assert forall x :: x in os + [o] <==> x in os || x == o;
  }

  lemma ClaimsAfter(os: seq<Outcome>, c: Dependency, pair: (string, string))
    ensures Claimed(os + [Claims(c)], pair) <==> Claimed(os, pair) || c.Pair() == pair
    ensures ClaimedObserved(os + [Claims(c)], pair) <==> ClaimedObserved(os, pair) || (c.Pair() == pair && c.observed)
    ensures ClaimedDeclared(os + [Claims(c)], pair) <==> ClaimedDeclared(os, pair) || (c.Pair() == pair && c.declared)
  {
    var all := os + [Claims(c)];
    assert all[|os|] == Claims(c);
    assert forall x :: x in all <==> x in os || x == Claims(c);
  }

  lemma NothingClaimed(os: seq<Outcome>, pair: (string, string))
    requires !Claimed(os, pair)
    ensures !ClaimedObserved(os, pair) && !ClaimedDeclared(os, pair)
  {
  }

  ghost predicate MergedRight(nets: N.Index, os: seq<Outcome>, resolved: seq<Dependency>) {
    && PairsDiffer(resolved)
    && (forall d :: d in resolved ==> Faithful(nets, os, d))
    && forall c :: Claims(c) in os ==> Standing(resolved, c.Pair())
  }

  lemma NewIsFaithful(nets: N.Index, os: seq<Outcome>, resolved: seq<Dependency>, c: Dependency)
    requires MergedRight(nets, os, resolved) && Find(resolved, c.Pair()) == |resolved|
    ensures Faithful(nets, os + [Claims(c)], Added(nets, resolved, c)[|resolved|])
  {
    ClaimsAfter(os, c, c.Pair());
    assert !Claimed(os, c.Pair());
    NothingClaimed(os, c.Pair());
  }

  lemma MergedIsFaithful(nets: N.Index, os: seq<Outcome>, d: Dependency, c: Dependency)
    requires Faithful(nets, os, d) && d.Pair() == c.Pair()
    ensures Faithful(nets, os + [Claims(c)], Merge(d, c)) && Merge(d, c).Pair() == c.Pair()
  {
    ClaimsAfter(os, c, c.Pair());
  }

  lemma AddKeeps(nets: N.Index, os: seq<Outcome>, resolved: seq<Dependency>, c: Dependency)
    requires MergedRight(nets, os, resolved)
    ensures MergedRight(nets, os + [Claims(c)], Added(nets, resolved, c))
  {
    var k, after, os' := Find(resolved, c.Pair()), Added(nets, resolved, c), os + [Claims(c)];
    if k < |resolved| {
      assert resolved[k] in resolved;
      MergedIsFaithful(nets, os, resolved[k], c);
    } else {
      NewIsFaithful(nets, os, resolved, c);
    }
    forall d | d in after ensures Faithful(nets, os', d) {
      var j :| 0 <= j < |after| && after[j] == d;
      if j != k {
        assert d == resolved[j] && d in resolved;
        StillFaithful(nets, os, Claims(c), d);
      }
    }
    StandingAfter(nets, os, resolved, c, k);
  }

  lemma StandingAfter(nets: N.Index, os: seq<Outcome>, resolved: seq<Dependency>, c: Dependency, k: nat)
    requires k == Find(resolved, c.Pair())
    requires forall x :: Claims(x) in os ==> Standing(resolved, x.Pair())
    ensures forall x :: Claims(x) in os + [Claims(c)] ==> Standing(Added(nets, resolved, c), x.Pair())
  {
    var after := Added(nets, resolved, c);
    assert after[k].Pair() == c.Pair() && after[k] in after;
    forall x | Claims(x) in os + [Claims(c)] ensures Standing(after, x.Pair()) {
      if x.Pair() != c.Pair() {
        var d :| d in resolved && d.Pair() == x.Pair();
        var j :| 0 <= j < |resolved| && resolved[j] == d;
        assert after[j] == d && after[j] in after;
      }
    }
  }

  /** After any outcomes: the resolved pairs are distinct, they are exactly the claimed ones, each carries both
      provenances exactly as claimed, and the networks its two services share, in the dependent's order. */
  lemma {:induction false} MergeIsFaithful(nets: N.Index, os: seq<Outcome>)
    ensures MergedRight(nets, os, After(nets, os).resolved)
  {
    if os != [] {
      var before, o := os[..|os| - 1], os[|os| - 1];
      MergeIsFaithful(nets, before);
      assert os == before + [o];
      if o.Claims? {
        AddKeeps(nets, before, After(nets, before).resolved, o.dep);
      } else {
        NoClaimKeeps(nets, before, o, After(nets, before).resolved);
      }
    }
  }

  lemma NoClaimKeeps(nets: N.Index, os: seq<Outcome>, o: Outcome, resolved: seq<Dependency>)
    requires MergedRight(nets, os, resolved) && !o.Claims?
    ensures MergedRight(nets, os + [o], resolved)
  {
    forall d | d in resolved ensures Faithful(nets, os + [o], d) {
      StillFaithful(nets, os, o, d);
    }
  }

  // ---------------------------------------------------------------------------
  // The relation, read off the fleet
  // ---------------------------------------------------------------------------

  /** Some service of key `s` names, in compose, another service of its own stack, of key `t`. */
  ghost predicate Composed(placed: seq<Placed>, s: string, t: string) {
    s != t && exists p, name :: p in placed && name in p.svc.dependsOn && NamesSibling(placed, p, name, s, t)
  }

  ghost predicate NamesSibling(placed: seq<Placed>, p: Placed, name: string, s: string, t: string) {
    p.Key() == s && ServiceKey(p.stackId, name) == t && HasSibling(placed, p.stackId, name)
  }

  ghost predicate HasSibling(placed: seq<Placed>, stackId: string, name: string) {
    exists q :: q in placed && q.stackId == stackId && q.svc.name == name
  }

  /** Some service of key `s` declares a reference that means the service of key `t`. */
  ghost predicate DeclaredBy(placed: seq<Placed>, s: string, t: string) {
    exists p, ref :: p in placed && ref in Refs(p) && p.Key() == s && Meant(placed, p, ref.ref, t)
  }

  lemma {:induction false} OutcomeIsSomeones(ix: Index, placed: seq<Placed>, o: Outcome)
    ensures o in Outcomes(ix, placed) <==> exists p :: p in placed && o in ServiceOutcomes(ix, p)
  {
    if placed != [] {
      SplitLast(placed);
      OutcomeIsSomeones(ix, placed[..|placed| - 1], o);
    }
  }

  lemma {:induction false} ComposeHas(ix: Index, p: Placed, names: seq<string>, o: Outcome)
    ensures o in ComposeOutcomes(ix, p, names) <==> exists n :: n in names && o in ComposeOutcome(ix, p, n)
  {
    if names != [] {
      SplitLast(names);
      ComposeHas(ix, p, names[..|names| - 1], o);
    }
  }

  lemma {:induction false} RefHas(ix: Index, p: Placed, refs: seq<DeclaredDependency>, o: Outcome)
    ensures o in RefOutcomes(ix, p, FileOf(p), refs) <==> exists ref :: ref in refs && o == RefOutcome(ix, p, FileOf(p), ref)
  {
    if refs != [] {
      SplitLast(refs);
      RefHas(ix, p, refs[..|refs| - 1], o);
    }
  }

  /** A claim of the walk is compose's, observed, or a declaration's, declared; never both at once. */
  lemma ClaimIsOneOfTwo(ix: Index, placed: seq<Placed>, c: Dependency)
    ensures Claims(c) in Outcomes(ix, placed) <==> ComposeClaim(ix, placed, c) || RefClaim(ix, placed, c)
  {
    OutcomeIsSomeones(ix, placed, Claims(c));
    forall p | p in placed ensures Claims(c) in ServiceOutcomes(ix, p) <==> ComposeClaimOf(ix, p, c) || RefClaimOf(ix, p, c) {
      ComposeHas(ix, p, p.svc.dependsOn, Claims(c));
      RefHas(ix, p, Refs(p), Claims(c));
    }
  }

  ghost predicate ComposeClaimOf(ix: Index, p: Placed, c: Dependency) {
    exists n :: n in p.svc.dependsOn && Claims(c) in ComposeOutcome(ix, p, n)
  }

  ghost predicate RefClaimOf(ix: Index, p: Placed, c: Dependency) {
    exists ref :: ref in Refs(p) && Claims(c) == RefOutcome(ix, p, FileOf(p), ref)
  }

  ghost predicate ComposeClaim(ix: Index, placed: seq<Placed>, c: Dependency) {
    exists p :: p in placed && ComposeClaimOf(ix, p, c)
  }

  ghost predicate RefClaim(ix: Index, placed: seq<Placed>, c: Dependency) {
    exists p :: p in placed && RefClaimOf(ix, p, c)
  }

  lemma ComposeClaimMade(placed: seq<Placed>, s: string, t: string)
    requires Composed(placed, s, t)
    ensures ComposeClaim(IndexOf(placed), placed, Dependency(s, t, [], true, false, "", ""))
  {
    var ix, c := IndexOf(placed), Dependency(s, t, [], true, false, "", "");
    var p, name :| p in placed && name in p.svc.dependsOn && NamesSibling(placed, p, name, s, t);
    InStackIs(placed, p.stackId, name);
    assert Claims(c) in ComposeOutcome(ix, p, name);
    assert ComposeClaimOf(ix, p, c);
  }

  lemma OneComposeClaim(ix: Index, p: Placed, name: string, c: Dependency)
    requires Claims(c) in ComposeOutcome(ix, p, name)
    ensures (p.stackId, name) in ix.inStack && c.Pair() == (p.Key(), ix.inStack[(p.stackId, name)]) && c.source != c.target
    ensures c.observed && !c.declared
  {
  }

  lemma ComposeClaimMeans(placed: seq<Placed>, c: Dependency)
    requires ComposeClaim(IndexOf(placed), placed, c)
    ensures c.observed && !c.declared && Composed(placed, c.source, c.target)
  {
    var ix := IndexOf(placed);
    var p :| p in placed && ComposeClaimOf(ix, p, c);
    var n :| n in p.svc.dependsOn && Claims(c) in ComposeOutcome(ix, p, n);
    OneComposeClaim(ix, p, n, c);
    InStackIs(placed, p.stackId, n);
    assert NamesSibling(placed, p, n, c.source, c.target);
  }

  lemma RefClaimMade(placed: seq<Placed>, s: string, t: string) returns (c: Dependency)
    requires WellNamed(placed) && DeclaredBy(placed, s, t)
    ensures c.Pair() == (s, t) && RefClaim(IndexOf(placed), placed, c)
  {
    var ix := IndexOf(placed);
    var p, ref :| p in placed && ref in Refs(p) && p.Key() == s && Meant(placed, p, ref.ref, t);
    ReferenceMeansOneService(placed, p, ref.ref, t);
    c := Dependency(s, t, [], false, true, FileOf(p), ref.detail);
    assert Claims(c) == RefOutcome(ix, p, FileOf(p), ref);
    assert RefClaimOf(ix, p, c);
  }

  lemma OneRefClaim(ix: Index, p: Placed, ref: DeclaredDependency, c: Dependency)
    requires Claims(c) == RefOutcome(ix, p, FileOf(p), ref)
    ensures c.source == p.Key() && Resolve(ix, p.Key(), p.stackId, ref.ref) == Target(c.target) && c.declared && !c.observed
  {
  }

  lemma RefClaimMeans(placed: seq<Placed>, c: Dependency)
    requires WellNamed(placed) && RefClaim(IndexOf(placed), placed, c)
    ensures c.declared && !c.observed && DeclaredBy(placed, c.source, c.target)
  {
    var ix := IndexOf(placed);
    var p :| p in placed && RefClaimOf(ix, p, c);
    var ref :| ref in Refs(p) && Claims(c) == RefOutcome(ix, p, FileOf(p), ref);
    OneRefClaim(ix, p, ref, c);
    ReferenceMeansOneService(placed, p, ref.ref, c.target);
  }

  lemma ClaimsAre(placed: seq<Placed>, s: string, t: string)
    requires WellNamed(placed)
    ensures var os := Outcomes(IndexOf(placed), placed);
      && (ClaimedObserved(os, (s, t)) <==> Composed(placed, s, t))
      && (ClaimedDeclared(os, (s, t)) <==> DeclaredBy(placed, s, t))
      && (Claimed(os, (s, t)) <==> Composed(placed, s, t) || DeclaredBy(placed, s, t))
  {
    var ix := IndexOf(placed);
    forall c ensures Claims(c) in Outcomes(ix, placed) <==> ComposeClaim(ix, placed, c) || RefClaim(ix, placed, c) {
      ClaimIsOneOfTwo(ix, placed, c);
    }
    forall c | ComposeClaim(ix, placed, c) ensures c.observed && !c.declared && Composed(placed, c.source, c.target) {
      ComposeClaimMeans(placed, c);
    }
    forall c | RefClaim(ix, placed, c) ensures c.declared && !c.observed && DeclaredBy(placed, c.source, c.target) {
      RefClaimMeans(placed, c);
    }
    if Composed(placed, s, t) {
      ComposeClaimMade(placed, s, t);
    }
    if DeclaredBy(placed, s, t) {
      var c := RefClaimMade(placed, s, t);
      assert Claims(c) in Outcomes(ix, placed);
    }
  }

  function Resolved(placed: seq<Placed>, nets: N.Index): seq<Dependency> {
    After(nets, Outcomes(IndexOf(placed), placed)).resolved
  }

  /** The resolved relation is exactly what the files say: no pair twice, a pair is there exactly when compose or a
      declaration names it, each provenance is recorded exactly when that source does, the two services are different
      ones of the fleet, and `via` is what they share in the dependent's order. */
  lemma ResolvedIsTheRelation(placed: seq<Placed>, nets: N.Index, s: string, t: string)
    requires WellNamed(placed)
    ensures PairsDiffer(Resolved(placed, nets))
    ensures Standing(Resolved(placed, nets), (s, t)) <==> Composed(placed, s, t) || DeclaredBy(placed, s, t)
    ensures forall d :: d in Resolved(placed, nets) && d.Pair() == (s, t) ==>
      && (d.observed <==> Composed(placed, s, t)) && (d.declared <==> DeclaredBy(placed, s, t))
      && d.via == N.Shared(nets, s, t) && s != t && s in Keys(placed) && t in Keys(placed)
  {
    var os := Outcomes(IndexOf(placed), placed);
    MergeIsFaithful(nets, os);
    ClaimsAre(placed, s, t);
    if Composed(placed, s, t) || DeclaredBy(placed, s, t) {
      RelatesServices(placed, s, t);
    }
  }

  lemma RelatesServices(placed: seq<Placed>, s: string, t: string)
    requires Composed(placed, s, t) || DeclaredBy(placed, s, t)
    ensures s != t && s in Keys(placed) && t in Keys(placed)
  {
    if Composed(placed, s, t) {
      var p, name :| p in placed && name in p.svc.dependsOn && NamesSibling(placed, p, name, s, t);
      var q :| q in placed && q.stackId == p.stackId && q.svc.name == name;
      HasIs(placed, s);
      HasIs(placed, t);
      assert q.Key() == t;
    } else {
      var p, ref :| p in placed && ref in Refs(p) && p.Key() == s && Meant(placed, p, ref.ref, t);
      HasIs(placed, s);
      HasIs(placed, t);
    }
  }

  // ---------------------------------------------------------------------------
  // Every reference is accounted for once
  // ---------------------------------------------------------------------------

  /** How many references every sidecar declares. */
  function RefCount(placed: seq<Placed>): nat {
    if placed == [] then 0 else RefCount(placed[..|placed| - 1]) + |Refs(placed[|placed| - 1])|
  }

  function DeclaredClaims(os: seq<Outcome>): nat {
    if os == [] then 0 else
      var o := os[|os| - 1];
      DeclaredClaims(os[..|os| - 1]) + (if o.Claims? && o.dep.declared then 1 else 0)
  }

  /** Refusals and resolved references so far, together. */
  function Settled(nets: N.Index, os: seq<Outcome>): nat { |After(nets, os).refused| + DeclaredClaims(os) }

  lemma SettledAfter(nets: N.Index, os: seq<Outcome>, o: Outcome)
    ensures Settled(nets, os + [o]) == Settled(nets, os) + (if o.Refuses? || (o.Claims? && o.dep.declared) then 1 else 0)
  {
    AfterOne(nets, os, o);
    assert (os + [o])[..|os|] == os;
  }

  lemma {:induction false} RefsSettle(ix: Index, nets: N.Index, p: Placed, os: seq<Outcome>, refs: seq<DeclaredDependency>)
    ensures Settled(nets, os + RefOutcomes(ix, p, FileOf(p), refs)) == Settled(nets, os) + |refs|
  {
    if refs == [] {
      assert os + RefOutcomes(ix, p, FileOf(p), refs) == os;
    } else {
      var n := |refs| - 1;
      RefsSettle(ix, nets, p, os, refs[..n]);
      var before := os + RefOutcomes(ix, p, FileOf(p), refs[..n]);
      JoinLeft(os, RefOutcomes(ix, p, FileOf(p), refs[..n]), [RefOutcome(ix, p, FileOf(p), refs[n])]);
      SettledAfter(nets, before, RefOutcome(ix, p, FileOf(p), refs[n]));
    }
  }

  lemma {:induction false} ComposeSettlesNothing(ix: Index, nets: N.Index, p: Placed, os: seq<Outcome>, names: seq<string>)
    ensures Settled(nets, os + ComposeOutcomes(ix, p, names)) == Settled(nets, os)
  {
    if names == [] {
      assert os + ComposeOutcomes(ix, p, names) == os;
    } else {
      var n := |names| - 1;
      ComposeSettlesNothing(ix, nets, p, os, names[..n]);
      var before, one := os + ComposeOutcomes(ix, p, names[..n]), ComposeOutcome(ix, p, names[n]);
      assert os + ComposeOutcomes(ix, p, names) == before + one;
      if one == [] {
        assert before + one == before;
      } else {
        SettledAfter(nets, before, one[0]);
        assert one == [one[0]];
      }
    }
  }

  lemma ServiceSettles(ix: Index, nets: N.Index, p: Placed, os: seq<Outcome>)
    ensures Settled(nets, os + ServiceOutcomes(ix, p)) == Settled(nets, os) + |Refs(p)|
  {
    var composed := os + ComposeOutcomes(ix, p, p.svc.dependsOn);
    ComposeSettlesNothing(ix, nets, p, os, p.svc.dependsOn);
    RefsSettle(ix, nets, p, composed, Refs(p));
    JoinLeft(os, ComposeOutcomes(ix, p, p.svc.dependsOn), RefOutcomes(ix, p, FileOf(p), Refs(p)));
  }

  lemma {:induction false} AllSettle(ix: Index, nets: N.Index, placed: seq<Placed>)
    ensures Settled(nets, Outcomes(ix, placed)) == RefCount(placed)
  {
    if placed != [] {
      var n := |placed| - 1;
      AllSettle(ix, nets, placed[..n]);
      ServiceSettles(ix, nets, placed[n], Outcomes(ix, placed[..n]));
    }
  }

  /** Every declared reference ends in exactly one of two places: it is refused, once, or it is a declared claim that
      landed on a resolved pair. None is lost and none is counted twice. */
  lemma ReferencesAreConserved(ix: Index, nets: N.Index, placed: seq<Placed>)
    ensures |After(nets, Outcomes(ix, placed)).refused| + DeclaredClaims(Outcomes(ix, placed)) == RefCount(placed)
  {
    AllSettle(ix, nets, placed);
  }

  lemma {:induction false} RefusedAre(nets: N.Index, os: seq<Outcome>, r: Refusal)
    ensures r in After(nets, os).refused <==> Refuses(r) in os
  {
    if os != [] {
      SplitLast(os);
      RefusedAre(nets, os[..|os| - 1], r);
    }
  }

  /** And each in the right place: refused with its own file and reason, or standing as a declared pair. */
  lemma EachReferenceLands(placed: seq<Placed>, nets: N.Index, p: Placed, ref: DeclaredDependency)
    requires WellNamed(placed) && p in placed && ref in Refs(p)
    ensures var w := After(nets, Outcomes(IndexOf(placed), placed));
      match Resolve(IndexOf(placed), p.Key(), p.stackId, ref.ref)
      case Refuse(reason, considered) =>
        Refusal(p.Key(), ref.ref, FileOf(p), reason, considered) in w.refused && forall t :: !Meant(placed, p, ref.ref, t)
      case Target(t) => Meant(placed, p, ref.ref, t) && exists d :: d in w.resolved && d.Pair() == (p.Key(), t) && d.declared
  {
    var ix := IndexOf(placed);
    var os := Outcomes(ix, placed);
    match Resolve(ix, p.Key(), p.stackId, ref.ref) {
      case Refuse(reason, considered) =>
        var r := Refusal(p.Key(), ref.ref, FileOf(p), reason, considered);
        RefusedAre(nets, os, r);
        OutcomeIsSomeones(ix, placed, Refuses(r));
        RefHas(ix, p, Refs(p), Refuses(r));
        forall t ensures !Meant(placed, p, ref.ref, t) { ReferenceMeansOneService(placed, p, ref.ref, t); }
      case Target(t) =>
        ReferenceMeansOneService(placed, p, ref.ref, t);
        ResolvedIsTheRelation(placed, nets, p.Key(), t);
    }
  }

  // ---------------------------------------------------------------------------
  // Details, files and notes
  // ---------------------------------------------------------------------------

  ghost predicate ClaimAt(os: seq<Outcome>, pair: (string, string), k: nat) {
    k < |os| && os[k].Claims? && os[k].dep.Pair() == pair
  }

  /** The claim whose words a pair carries: the first that gives a detail, or the last of all when none does. */
  ghost predicate Speaks(os: seq<Outcome>, pair: (string, string), k: nat) {
    && ClaimAt(os, pair, k)
    && (forall j: nat :: j < k && ClaimAt(os, pair, j) ==> os[j].dep.detail == "")
    && (os[k].dep.detail == "" ==> forall j: nat :: k < j && ClaimAt(os, pair, j) ==> false)
  }

  /** A pair carries the detail and the file of the claim that speaks for it, whatever the accounts of it: the first
      detail given stands with its own file, and until one is given the file is that of the latest claim. */
  lemma {:induction false} DetailIsTheFirst(nets: N.Index, os: seq<Outcome>, pair: (string, string))
    ensures var r, i := After(nets, os).resolved, Find(After(nets, os).resolved, pair);
      && (i < |r| ==> exists k: nat :: Speaks(os, pair, k) && r[i].detail == os[k].dep.detail && r[i].file == os[k].dep.file)
      && (i == |r| <==> forall k: nat :: !ClaimAt(os, pair, k))
  {
    if os != [] {
      var n := |os| - 1;
      var before, o := os[..n], os[n];
      assert forall k: nat :: k < n ==> (ClaimAt(os, pair, k) <==> ClaimAt(before, pair, k)) && os[k] == before[k];
      DetailIsTheFirst(nets, before, pair);
      var r := After(nets, before).resolved;
      if o.Claims? {
        FindAdded(nets, r, o.dep, pair);
      }
      if Find(r, pair) < |r| {
        var k: nat :| Speaks(before, pair, k) && r[Find(r, pair)].detail == before[k].dep.detail && r[Find(r, pair)].file == before[k].dep.file;
        SpeakerAfter(os, pair, k);
      } else if ClaimAt(os, pair, n) {
        assert Speaks(os, pair, n);
      }
    }
  }

  lemma SpeakerAfter(os: seq<Outcome>, pair: (string, string), k: nat)
    requires os != [] && Speaks(os[..|os| - 1], pair, k)
    ensures Speaks(os, pair, if ClaimAt(os, pair, |os| - 1) && os[k].dep.detail == "" then |os| - 1 else k)
  {
    var before := os[..|os| - 1];
    assert forall j: nat :: j < |before| ==> (ClaimAt(os, pair, j) <==> ClaimAt(before, pair, j)) && os[j] == before[j];
  }

  lemma FindAdded(nets: N.Index, r: seq<Dependency>, d: Dependency, pair: (string, string))
    ensures var r' := Added(nets, r, d);
      var i, j := Find(r, pair), Find(r', pair);
      && (i < |r| ==> j == i && r'[j] == if d.Pair() == pair then Merge(r[i], d) else r[i])
      && (i == |r| && d.Pair() == pair ==> j == |r| < |r'| && r'[j] == d.(via := N.Shared(nets, d.source, d.target)))
      && (i == |r| && d.Pair() != pair ==> j == |r'|)
  {
    var r', i := Added(nets, r, d), Find(r, pair);
    if i < |r| {
      assert forall k :: 0 <= k < i ==> r'[k].Pair() == r[k].Pair();
      FindIs(r', pair, i);
    } else if d.Pair() == pair {
      FindIs(r', pair, |r|);
    } else {
      assert forall k :: 0 <= k < |r| ==> r'[k].Pair() == r[k].Pair();
      FindIs(r', pair, |r'|);
    }
  }

  lemma FindIs(r: seq<Dependency>, pair: (string, string), i: nat)
    requires i <= |r| && (i < |r| ==> r[i].Pair() == pair) && forall j :: 0 <= j < i ==> r[j].Pair() != pair
    ensures Find(r, pair) == i
  {
  }

  ghost predicate Unreached(deps: seq<Dependency>, key: string, target: string) {
    exists d :: d in deps && d.Pair() == (key, target) && d.via == []
  }

  lemma PushHas(m: map<string, seq<Note>>, k: string, n: Note, key: string, note: Note)
    ensures note in Get(Push(m, k, n), key) <==> note in Get(m, key) || (k == key && n == note)
  {
  }

  /** A service is told of the pairs it depends on across no network, and of no other. */
  lemma {:induction false} UnreachableIs(notes: map<string, seq<Note>>, deps: seq<Dependency>, key: string, target: string)
    requires NoSharedNetwork(target) !in Get(notes, key)
    ensures NoSharedNetwork(target) in Get(Unreachable(notes, deps), key) <==> Unreached(deps, key, target)
  {
    if deps != [] {
      SplitLast(deps);
      var d, before := deps[|deps| - 1], deps[..|deps| - 1];
      UnreachableIs(notes, before, key, target);
      assert Unreached(deps, key, target) <==> Unreached(before, key, target) || (d.Pair() == (key, target) && d.via == []);
      PushHas(Unreachable(notes, before), d.source, NoSharedNetwork(d.target), key, NoSharedNetwork(target));
    }
  }
}
