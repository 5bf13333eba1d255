/** The sums the overview promises, across code that counts in different places. */
module Conservation {
  import opened Options
  import opened Lists
  import opened Vocabulary
  import opened Fleet
  import opened Ingress
  import opened Depends
  import opened Stats
  import N = Networks
  import Declare
  import Graphs
  import GraphLaws
  import GraphTheorems

  // ---------------------------------------------------------------------------
  // Two counts of disjoint things
  // ---------------------------------------------------------------------------

  /** When exactly one of `p` and `q` holds wherever `r` does, and neither elsewhere, the counts add up. */
  lemma {:induction false} CountsAdd<T(!new)>(s: seq<T>, p: T -> bool, q: T -> bool, r: T -> bool)
    requires forall x :: x in s ==> (r(x) <==> p(x) || q(x)) && !(p(x) && q(x))
    ensures Count(s, p) + Count(s, q) == Count(s, r)
  {
    if s != [] {
      SplitLast(s);
      CountsAdd(s[..|s| - 1], p, q, r);
    }
  }

  lemma {:induction false} CountsAll<T(!new)>(s: seq<T>, p: T -> bool)
    requires forall x :: x in s ==> p(x)
    ensures Count(s, p) == |s|
  {
    if s != [] {
      SplitLast(s);
      CountsAll(s[..|s| - 1], p);
    }
  }

  // ---------------------------------------------------------------------------
  // The exposure verdict
  // ---------------------------------------------------------------------------

  /** Each service judged, as the walk leaves the fleet. */
  ghost predicate JudgedFrom(before: seq<Placed>, after: seq<Placed>, refused: seq<Refusal>) {
    |after| == |before| && forall i :: 0 <= i < |before| ==>
      after[i] == before[i].(svc := Declare.Judged(before[i].svc, Declare.RefusedBy(refused, before[i].Key())))
  }

  predicate Reachable(p: Placed) { Declare.WouldBeExposed(p.svc) }

  /** After the walk, the exposed and the declared-protected counters together are exactly the externally reachable
      services with no edge authentication: none is in both counters, and none is in neither. */
  lemma VerdictIsConserved(s: Overview, before: seq<Placed>, after: seq<Placed>, refused: seq<Refusal>)
    requires JudgedFrom(before, after, refused) && Counts(s, after)
    ensures s.readings.exposedWithoutAuth + s.declared.authProtected == Count(after, Reachable) == Count(before, Reachable)
  {
    forall p | p in after ensures (Reachable(p) <==> Exposed(p) || Supplied(p)) && !(Exposed(p) && Supplied(p)) {
      var i :| 0 <= i < |after| && after[i] == p;
      Declare.ExposureIsSettledOnce(before[i].svc, Declare.RefusedBy(refused, before[i].Key()));
      Declare.DetectionsStand(before[i].svc, Declare.RefusedBy(refused, before[i].Key()));
    }
    CountsAdd(after, Exposed, Supplied, Reachable);
    ReachableIsKept(before, after, refused);
  }

  lemma {:induction false} ReachableIsKept(before: seq<Placed>, after: seq<Placed>, refused: seq<Refusal>)
    requires JudgedFrom(before, after, refused)
    ensures Count(after, Reachable) == Count(before, Reachable)
  {
    if before != [] {
      var n := |before| - 1;
      ReachableIsKept(before[..n], after[..n], refused);
      Declare.DetectionsStand(before[n].svc, Declare.RefusedBy(refused, before[n].Key()));
    }
  }

  // ---------------------------------------------------------------------------
  // Methods
  // ---------------------------------------------------------------------------

  function SumOf(ms: seq<AuthMethod>, counts: map<AuthMethod, nat>): nat
    requires forall m :: m in ms ==> m in counts
  {
    if ms == [] then 0 else SumOf(ms[..|ms| - 1], counts) + counts[ms[|ms| - 1]]
  }

  predicate AmongMethods(ms: seq<AuthMethod>, p: Placed) { MethodOf(p) in ms }

  lemma {:induction false} MethodsPartition(placed: seq<Placed>, counts: map<AuthMethod, nat>, ms: seq<AuthMethod>)
    requires Distinct(ms) && forall m :: m in ms ==> m in counts && counts[m] == Count(placed, HasMethod(m))
    ensures SumOf(ms, counts) == Count(placed, p => AmongMethods(ms, p))
  {
    if ms == [] {
      NoneCounted(placed, p => AmongMethods(ms, p));
    } else {
      var last, rest := ms[|ms| - 1], ms[..|ms| - 1];
      SplitLast(ms);
      MethodsPartition(placed, counts, rest);
      CountsAdd(placed, p => AmongMethods(rest, p), HasMethod(last), p => AmongMethods(ms, p));
    }
  }

  /** The method distribution sums to the services, however its members are listed, and what is protected is what is
      left when the undetected are taken away. */
  lemma MethodsAddUp(s: Overview, placed: seq<Placed>, ms: seq<AuthMethod>)
    requires Counts(s, placed) && Distinct(ms) && forall m :: m in ms <==> m in s.byMethod
    ensures SumOf(ms, s.byMethod) == s.readings.services
    ensures s.readings.authProtected == s.readings.services - s.byMethod[NoAuth]
  {
    MethodsPartition(placed, s.byMethod, ms);
    CountsAll(placed, p => AmongMethods(ms, p));
    assert AUTH_METHODS[7] == NoAuth;
    CountsAdd(placed, Protected, HasMethod(NoAuth), p => AmongMethods(ms, p));
  }

  // ---------------------------------------------------------------------------
  // Ingress
  // ---------------------------------------------------------------------------

  predicate IsOutside(p: Placed) { External(p.svc.ingress) }

  predicate NotOutside(p: Placed) { !External(p.svc.ingress) }

  predicate Anything(p: Placed) { true }

  /** Over sets built by the one constructor, every service is external, internal only, or has no ingress. */
  lemma IngressAddsUp(s: Overview, placed: seq<Placed>)
    requires Counts(s, placed) && forall p :: p in placed ==> exists kinds :: p.svc.ingress == IngressSet(kinds)
    ensures Internal in s.tagged && NoIngress in s.tagged
    ensures s.tagged[Internal] + s.tagged[NoIngress] + Count(placed, IsOutside) == s.readings.services
  {
    assert INGRESS_KINDS[3] == Internal && INGRESS_KINDS[4] == NoIngress;
    forall p | p in placed
      ensures (NotOutside(p) <==> Internal in p.svc.ingress || NoIngress in p.svc.ingress)
      ensures !(Internal in p.svc.ingress && NoIngress in p.svc.ingress)
    {
      var kinds :| p.svc.ingress == IngressSet(kinds);
      SetSaysOneThing(kinds);
    }
    CountsAdd(placed, Tagged(Internal), Tagged(NoIngress), NotOutside);
    CountsAdd(placed, NotOutside, IsOutside, Anything);
    CountsAll(placed, Anything);
  }

  // ---------------------------------------------------------------------------
  // Networks
  // ---------------------------------------------------------------------------

  lemma {:induction false} DrawnOrSolo(nets: N.Index, names: seq<string>)
    requires forall n :: n in names ==> n in nets.byName
    ensures GraphTheorems.DrawnCount(nets, names) + Count(Listed(nets, names), IsSoloLocal) == |names|
  {
    if names != [] {
      SplitLast(names);
      var n := |names| - 1;
      DrawnOrSolo(nets, names[..n]);
      assert Listed(nets, names)[..n] == Listed(nets, names[..n]);
    }
  }

  /** Drawn network nodes and solo-local networks make up all networks, though the graph counts the one and the index
      the other. */
  lemma NetworkIdentityHolds(inp: Graphs.Input, external: set<string>, c: NetworkCounts)
    requires GraphTheorems.FromScan(inp, external)
    requires (forall n :: n in inp.nets.order ==> n in inp.nets.byName) && Counted(c, Listed(inp.nets, inp.nets.order))
    ensures GraphTheorems.NetworkNodes(Graphs.Built(inp).nodes) + c.soloLocal == c.networks
  {
    GraphTheorems.ScanIsWellFed(inp, external);
    DedupeKeeps(N.Names(N.Attachments(inp.Placed())));
    GraphTheorems.NetworksDrawnOnce(inp);
    DrawnOrSolo(inp.nets, inp.nets.order);
  }
}
