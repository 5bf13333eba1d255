/** The stages of labview/internal/pipeline/pipeline.go in their order, from the scanned fleet to the graph: the network
    index, origin resolution, dependencies, and the later stages, which rewrite services in place but leave alone what
    the earlier ones read. */
module Pipeline {
  import opened Options
  import opened Lists
  import opened Fleet
  import opened Depends
  import opened Graphs
  import opened GraphLaws
  import opened GraphTheorems
  import Nets = Networks
  import O = Origins
  import FleetIndex
  import DependencyLaws
  import Declare

  /** The declaration as read, whatever the comparison has written beside it. */
  ghost predicate SameWords(d: Option<Declaration>, e: Option<Declaration>) {
    && (d.None? <==> e.None?)
    && (d.Some? ==> e.value == d.value.(agreement := e.value.agreement, drift := e.value.drift, unconfirmed := e.value.unconfirmed))
  }

  /** What the stages after dependency resolution may write of a service. */
  ghost predicate Enriched(p: Placed, q: Placed) {
    && q.stackId == p.stackId && SameWords(p.svc.declared, q.svc.declared)
    && q.svc == p.svc.(auth := q.svc.auth, exposedWithoutAuth := q.svc.exposedWithoutAuth, authentik := q.svc.authentik,
                       declared := q.svc.declared, probe := q.svc.probe, notes := q.svc.notes)
  }

  ghost predicate AllEnriched(before: seq<Placed>, after: seq<Placed>) {
    |before| == |after| && forall i :: 0 <= i < |before| ==> Enriched(before[i], after[i])
  }

  /** The declaration walk writes nothing else. */
  lemma JudgingEnriches(p: Placed, refused: seq<Refusal>)
    ensures Enriched(p, p.(svc := Declare.Judged(p.svc, refused)))
  {
  }

  /** The fleet after origin resolution, as `Origins.Origins` leaves it. */
  function AfterOrigins(ix: FleetIndex.Index, nets: Nets.Index, scanned: seq<Placed>): (r: seq<Placed>)
    ensures |r| == |scanned| && forall i :: 0 <= i < |r| ==> r[i] == O.Resolved(ix, nets, scanned[i])
  {
    seq(|scanned|, i requires 0 <= i < |scanned| => O.Resolved(ix, nets, scanned[i]))
  }

  /** The graph's input is what the pipeline hands it: the index and the networks of the scanned fleet, the dependencies
      of the fleet with its origins resolved, and the fleet the later stages leave. */
  ghost predicate FromPipeline(inp: Input, scanned: seq<Placed>, external: set<string>) {
    var ix, nets := FleetIndex.IndexOf(scanned), Nets.IndexOf(Nets.Attachments(scanned), external);
    && WellNamed(scanned) && (forall p, r :: p in scanned && r in p.svc.cloudflare ==> r.origin.None?)
    && inp.nets == nets
    && inp.deps == After(nets, Outcomes(ix, AfterOrigins(ix, nets, scanned))).resolved
    && AllEnriched(AfterOrigins(ix, nets, scanned), inp.Placed())
  }

  // ---------------------------------------------------------------------------
  // What the stages read stays as it was
  // ---------------------------------------------------------------------------

  /** The parts of a service that its networks and dependencies are read from. */
  ghost predicate SameRelations(p: Placed, q: Placed) {
    && q.stackId == p.stackId && q.svc.name == p.svc.name && q.svc.networks == p.svc.networks
    && q.svc.dependsOn == p.svc.dependsOn && Refs(q) == Refs(p) && FileOf(q) == FileOf(p)
  }

  ghost predicate AllSame(a: seq<Placed>, b: seq<Placed>) {
    |a| == |b| && forall i :: 0 <= i < |a| ==> SameRelations(a[i], b[i])
  }

  lemma SameKeys(a: seq<Placed>, b: seq<Placed>)
    requires AllSame(a, b)
    ensures Keys(a) == Keys(b) && (WellNamed(a) ==> WellNamed(b))
  {
    forall i | 0 <= i < |a| ensures Keys(a)[i] == Keys(b)[i] { assert SameRelations(a[i], b[i]); }
    if WellNamed(a) {
      forall p | p in b ensures '/' !in p.stackId {
        var i :| 0 <= i < |b| && b[i] == p;
        assert SameRelations(a[i], b[i]) && a[i] in a;
      }
      forall i, j | 0 <= i < j < |b| ensures !(b[i].stackId == b[j].stackId && b[i].svc.name == b[j].svc.name) {
        assert SameRelations(a[i], b[i]) && SameRelations(a[j], b[j]);
      }
    }
  }

  lemma AttachmentsOnAre(p: Placed, q: Placed, networks: seq<string>)
    requires q.stackId == p.stackId && q.Key() == p.Key()
    ensures Nets.AttachmentsOn(p, networks) == Nets.AttachmentsOn(q, networks)
  {
    if networks != [] {
      AttachmentsOnAre(p, q, networks[..|networks| - 1]);
    }
  }

  lemma {:induction false} SameAttachments(a: seq<Placed>, b: seq<Placed>)
    requires AllSame(a, b)
    ensures Nets.Attachments(a) == Nets.Attachments(b)
  {
    if a != [] {
      var n := |a| - 1;
      assert SameRelations(a[n], b[n]);
      SameAttachments(a[..n], b[..n]);
      AttachmentsOnAre(a[n], b[n], a[n].svc.networks);
    }
  }

  lemma {:induction false} SameStackNames(a: seq<Placed>, b: seq<Placed>)
    requires AllSame(a, b)
    ensures FleetIndex.StackNames(a) == FleetIndex.StackNames(b)
  {
    if a != [] {
      var n := |a| - 1;
      assert SameRelations(a[n], b[n]);
      SameStackNames(a[..n], b[..n]);
    }
  }

  /** Two indexes that resolve references alike. */
  ghost predicate SameNames(ix: FleetIndex.Index, ix': FleetIndex.Index) {
    Keys(ix.placed) == Keys(ix'.placed) && ix.inStack == ix'.inStack
  }

  lemma {:induction false} SameComposeOutcomes(ix: FleetIndex.Index, ix': FleetIndex.Index, p: Placed, q: Placed, names: seq<string>)
    requires SameNames(ix, ix') && q.stackId == p.stackId && q.svc.name == p.svc.name
    ensures ComposeOutcomes(ix, p, names) == ComposeOutcomes(ix', q, names)
  {
    if names != [] {
      SameComposeOutcomes(ix, ix', p, q, names[..|names| - 1]);
    }
  }

  lemma {:induction false} SameRefOutcomes(ix: FleetIndex.Index, ix': FleetIndex.Index, p: Placed, q: Placed, file: string,
                                           refs: seq<DeclaredDependency>)
    requires SameNames(ix, ix') && q.stackId == p.stackId && q.svc.name == p.svc.name
    ensures RefOutcomes(ix, p, file, refs) == RefOutcomes(ix', q, file, refs)
  {
    if refs != [] {
      SameRefOutcomes(ix, ix', p, q, file, refs[..|refs| - 1]);
      assert Resolve(ix, p.Key(), p.stackId, refs[|refs| - 1].ref) == Resolve(ix', q.Key(), q.stackId, refs[|refs| - 1].ref);
    }
  }

  /** Dependencies read off a fleet and its index are those of any other fleet that says the same. */
  lemma {:induction false} SameOutcomes(ix: FleetIndex.Index, ix': FleetIndex.Index, a: seq<Placed>, b: seq<Placed>)
    requires SameNames(ix, ix') && AllSame(a, b)
    ensures Outcomes(ix, a) == Outcomes(ix', b)
  {
    if a != [] {
      var n := |a| - 1;
      assert SameRelations(a[n], b[n]);
      SameOutcomes(ix, ix', a[..n], b[..n]);
      SameComposeOutcomes(ix, ix', a[n], b[n], a[n].svc.dependsOn);
      SameRefOutcomes(ix, ix', a[n], b[n], FileOf(a[n]), Refs(a[n]));
    }
  }

  lemma StagesKeepRelations(inp: Input, scanned: seq<Placed>, external: set<string>)
    requires FromPipeline(inp, scanned, external)
    ensures var resolved := AfterOrigins(FleetIndex.IndexOf(scanned), inp.nets, scanned);
      AllSame(scanned, resolved) && AllSame(scanned, inp.Placed()) && AllSame(resolved, inp.Placed())
  {
    var resolved := AfterOrigins(FleetIndex.IndexOf(scanned), inp.nets, scanned);
    forall i | 0 <= i < |scanned|
      ensures SameRelations(scanned[i], resolved[i]) && SameRelations(resolved[i], inp.Placed()[i])
    {
      assert Enriched(resolved[i], inp.Placed()[i]);
    }
  }

  /** The later stages leave the resolved routes as they are. */
  lemma StagesKeepOrigins(inp: Input, scanned: seq<Placed>, external: set<string>)
    requires FromPipeline(inp, scanned, external)
    ensures OriginsOf(scanned, inp.nets, inp.Placed())
  {
    StagesKeepRelations(inp, scanned, external);
    SameKeys(scanned, inp.Placed());
    var resolved := AfterOrigins(FleetIndex.IndexOf(scanned), inp.nets, scanned);
    forall i | 0 <= i < |inp.Placed()|
      ensures inp.Placed()[i].svc.cloudflare == O.Resolved(FleetIndex.IndexOf(scanned), inp.nets, scanned[i]).svc.cloudflare
    {
      assert Enriched(resolved[i], inp.Placed()[i]);
    }
  }

  /** What the pipeline hands the graph builder is one scan: the indexes and relations it computed on the way are those of
      the fleet it ends with. */
  lemma PipelineIsOneScan(inp: Input, scanned: seq<Placed>, external: set<string>)
    requires FromPipeline(inp, scanned, external)
    ensures FromScan(inp, external)
  {
    StagesKeepRelations(inp, scanned, external);
    StagesKeepOrigins(inp, scanned, external);
    SameKeys(scanned, inp.Placed());
    SameAttachments(scanned, inp.Placed());
    SameStackNames(scanned, inp.Placed());
    var ix, ix' := FleetIndex.IndexOf(scanned), FleetIndex.IndexOf(inp.Placed());
    assert SameNames(ix, ix');
    SameOutcomes(ix, ix', AfterOrigins(ix, inp.nets, scanned), inp.Placed());
  }

  /** So the graph of the pipeline's own output is closed. */
  lemma PipelineGraphIsClosed(inp: Input, scanned: seq<Placed>, external: set<string>, e: Edge)
    requires FromPipeline(inp, scanned, external)
    ensures IdsAreUnique(Built(inp))
    ensures e in Built(inp).edges ==> HasNode(Built(inp), e.source) && HasNode(Built(inp), e.target)
  {
    PipelineIsOneScan(inp, scanned, external);
    ScanIsWellFed(inp, external);
    GraphIsClosed(inp, e);
  }
}
