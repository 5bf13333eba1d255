/** The counters of labview/internal/fleet/stats.go, each counted off a stored field, and the sums that must hold between them,
    the graph and the exposure verdict. */
module Stats {
  import opened Options
  import opened Lists
  import opened Vocabulary
  import opened Fleet
  import opened Ingress
  import opened Depends
  import N = Networks
  import Declare

  function Count<T>(s: seq<T>, p: T -> bool): nat {
    if s == [] then 0 else Count(s[..|s| - 1], p) + (if p(s[|s| - 1]) then 1 else 0)
  }

  predicate Running(p: Placed) { p.svc.docker.Some? && p.svc.docker.value.running }

  function Tagged(k: IngressKind): Placed -> bool { (p: Placed) => k in p.svc.ingress }

  /** An empty method counts as `none`. */
  function MethodOf(p: Placed): AuthMethod { if p.svc.auth.Unset? then NoAuth else p.svc.auth }

  function HasMethod(m: AuthMethod): Placed -> bool { (p: Placed) => MethodOf(p) == m }

  predicate Protected(p: Placed) { MethodOf(p).Detected() }
  predicate Exposed(p: Placed) { p.svc.exposedWithoutAuth }
  predicate Gated(p: Placed) { p.svc.probe.Some? && p.svc.probe.value.gate != "" }
  predicate Open(p: Placed) { p.svc.probe.Some? && p.svc.probe.value.gate == "" && p.svc.probe.value.answered }
  predicate Declares(p: Placed) { p.svc.declared.Some? && p.svc.declared.value.auth != [] }
  predicate Supplied(p: Placed) { p.svc.declared.Some? && p.svc.declared.value.agreement.Supplies? }
  predicate Doubtful(p: Placed) { p.svc.declared.Some? && p.svc.declared.value.unconfirmed != [] }
  predicate Accepts(p: Placed) { p.svc.declared.Some? && p.svc.declared.value.accepted }

  function DriftEntries(placed: seq<Placed>): nat {
    if placed == [] then 0 else
      var p := placed[|placed| - 1];
      DriftEntries(placed[..|placed| - 1]) + (if p.svc.declared.Some? then |p.svc.declared.value.drift| else 0)
  }

  /** The counters over services, in the groups the walk fills. `byMethod` always has the known methods. */
  datatype Overview = Overview(readings: Readings, tagged: map<IngressKind, nat>, byMethod: map<AuthMethod, nat>, declared: Declarations)

  datatype Readings = Readings(services: nat, running: nat, authProtected: nat, exposedWithoutAuth: nat, probeGated: nat, probeOpen: nat)

  datatype Declarations = Declarations(auth: nat, authProtected: nat, unconfirmed: nat, exposureAccepted: nat, drift: nat)

  ghost predicate ReadingsCount(r: Readings, placed: seq<Placed>) {
    && r.services == |placed| && r.running == Count(placed, Running) && r.authProtected == Count(placed, Protected)
    && r.exposedWithoutAuth == Count(placed, Exposed) && r.probeGated == Count(placed, Gated) && r.probeOpen == Count(placed, Open)
  }

  ghost predicate KindsCount(tagged: map<IngressKind, nat>, placed: seq<Placed>) {
    && (forall k :: k in INGRESS_KINDS ==> k in tagged)
    && forall k :: k in tagged ==> k in INGRESS_KINDS && tagged[k] == Count(placed, Tagged(k))
  }

  ghost predicate HasKnown(byMethod: map<AuthMethod, nat>) { forall m :: m in AUTH_METHODS ==> m in byMethod }

  ghost predicate MethodsCount(byMethod: map<AuthMethod, nat>, placed: seq<Placed>) { HasKnown(byMethod) && MethodTally(byMethod, placed) }

  ghost predicate MethodTally(byMethod: map<AuthMethod, nat>, placed: seq<Placed>) {
    && (forall p :: p in placed ==> MethodOf(p) in byMethod)
    && forall m :: m in byMethod ==> byMethod[m] == Count(placed, HasMethod(m))
  }

  ghost predicate DeclarationsCount(d: Declarations, placed: seq<Placed>) {
    && d.auth == Count(placed, Declares) && d.authProtected == Count(placed, Supplied) && d.unconfirmed == Count(placed, Doubtful)
    && d.exposureAccepted == Count(placed, Accepts) && d.drift == DriftEntries(placed)
  }

  /** The counters say of the services walked so far what the services say themselves. */
  ghost predicate Counts(s: Overview, placed: seq<Placed>) {
    && ReadingsCount(s.readings, placed) && KindsCount(s.tagged, placed)
    && MethodsCount(s.byMethod, placed) && DeclarationsCount(s.declared, placed)
  }

  method AddReadings(r: Readings, p: Placed, ghost before: seq<Placed>) returns (out: Readings)
    requires ReadingsCount(r, before)
    ensures ReadingsCount(out, before + [p])
  {
    CountOne(before, p);
    out := r.(services := r.services + 1);
    if Running(p) {
      out := out.(running := out.running + 1);
    }
    if MethodOf(p).Detected() {
      out := out.(authProtected := out.authProtected + 1);
    }
    if p.svc.exposedWithoutAuth {
      out := out.(exposedWithoutAuth := out.exposedWithoutAuth + 1);
    }
    if p.svc.probe.Some? {
      if p.svc.probe.value.gate != "" {
        out := out.(probeGated := out.probeGated + 1);
      } else if p.svc.probe.value.answered {
        out := out.(probeOpen := out.probeOpen + 1);
      }
    }
  }

  /** The five tags are independent tests, since one service can carry several. */
  method AddKinds(tagged: map<IngressKind, nat>, p: Placed, ghost before: seq<Placed>) returns (out: map<IngressKind, nat>)
    requires KindsCount(tagged, before)
    ensures KindsCount(out, before + [p])
  {
    forall k ensures Count(before + [p], Tagged(k)) == Count(before, Tagged(k)) + (if k in p.svc.ingress then 1 else 0) {
      CountAppend(before, p, Tagged(k));
    }
    out := map k | k in tagged :: tagged[k] + if k in p.svc.ingress then 1 else 0;
  }

  function OneMoreOf(byMethod: map<AuthMethod, nat>, m: AuthMethod): map<AuthMethod, nat> {
    byMethod[m := (if m in byMethod then byMethod[m] else 0) + 1]
  }

  lemma TallyOne(byMethod: map<AuthMethod, nat>, p: Placed, before: seq<Placed>)
    requires MethodTally(byMethod, before)
    ensures MethodTally(OneMoreOf(byMethod, MethodOf(p)), before + [p])
  {
    var m := MethodOf(p);
    forall k ensures Count(before + [p], HasMethod(k)) == Count(before, HasMethod(k)) + (if k == m then 1 else 0) {
      CountAppend(before, p, HasMethod(k));
    }
    if m !in byMethod {
      NoneCounted(before, HasMethod(m));
    }
  }

  lemma KnownStay(byMethod: map<AuthMethod, nat>, m: AuthMethod)
    requires HasKnown(byMethod)
    ensures HasKnown(OneMoreOf(byMethod, m))
  {
  }

  method AddMethod(byMethod: map<AuthMethod, nat>, p: Placed, ghost before: seq<Placed>) returns (out: map<AuthMethod, nat>)
    requires MethodsCount(byMethod, before)
    ensures MethodsCount(out, before + [p])
  {
    var m := MethodOf(p);
    TallyOne(byMethod, p, before);
    KnownStay(byMethod, m);
    out := byMethod[m := (if m in byMethod then byMethod[m] else 0) + 1];
  }

  method AddDeclaration(d: Declarations, p: Placed, ghost before: seq<Placed>) returns (out: Declarations)
    requires DeclarationsCount(d, before)
    ensures DeclarationsCount(out, before + [p])
  {
    CountOne(before, p);
    out := d;
    if p.svc.declared.None? {
      return;
    }
    var decl := p.svc.declared.value;
    if decl.auth != [] {
      out := out.(auth := out.auth + 1);
    }
    if decl.agreement.Supplies? {
      out := out.(authProtected := out.authProtected + 1);
    }
    if decl.unconfirmed != [] {
      out := out.(unconfirmed := out.unconfirmed + 1);
    }
    if decl.accepted {
      out := out.(exposureAccepted := out.exposureAccepted + 1);
    }
    out := out.(drift := out.drift + |decl.drift|);
  }

  lemma CountAppend<T>(s: seq<T>, x: T, p: T -> bool)
    ensures Count(s + [x], p) == Count(s, p) + (if p(x) then 1 else 0)
  {
    assert (s + [x])[..|s|] == s;
  }

  lemma {:induction false} NoneCounted<T(!new)>(s: seq<T>, p: T -> bool)
    requires forall x :: x in s ==> !p(x)
    ensures Count(s, p) == 0
  {
    if s != [] {
      SplitLast(s);
      NoneCounted(s[..|s| - 1], p);
    }
  }

  lemma CountOne(before: seq<Placed>, p: Placed)
    ensures Count(before + [p], Running) == Count(before, Running) + (if Running(p) then 1 else 0)
    ensures Count(before + [p], Protected) == Count(before, Protected) + (if Protected(p) then 1 else 0)
    ensures Count(before + [p], Exposed) == Count(before, Exposed) + (if Exposed(p) then 1 else 0)
    ensures Count(before + [p], Gated) == Count(before, Gated) + (if Gated(p) then 1 else 0)
    ensures Count(before + [p], Open) == Count(before, Open) + (if Open(p) then 1 else 0)
    ensures Count(before + [p], Declares) == Count(before, Declares) + (if Declares(p) then 1 else 0)
    ensures Count(before + [p], Supplied) == Count(before, Supplied) + (if Supplied(p) then 1 else 0)
    ensures Count(before + [p], Doubtful) == Count(before, Doubtful) + (if Doubtful(p) then 1 else 0)
    ensures Count(before + [p], Accepts) == Count(before, Accepts) + (if Accepts(p) then 1 else 0)
    ensures DriftEntries(before + [p]) == DriftEntries(before) + (if p.svc.declared.Some? then |p.svc.declared.value.drift| else 0)
  {
    assert (before + [p])[..|before|] == before;
  }

  /** Every known member present at zero. */
  function Start(): Overview {
    Overview(Readings(0, 0, 0, 0, 0, 0), map k | k in INGRESS_KINDS :: 0, map m | m in AUTH_METHODS :: 0, Declarations(0, 0, 0, 0, 0))
  }

  lemma StartCounts()
    ensures Counts(Start(), [])
  {
  }

  /** The whole walk. */
  method Tally(placed: seq<Placed>) returns (s: Overview)
    ensures Counts(s, placed)
  {
    StartCounts();
    s := Start();
    var i := 0;
    while i < |placed|
      invariant 0 <= i <= |placed| && Counts(s, placed[..i])
    {
      TakeMore(placed, i);
      s := AddService(s, placed[i], placed[..i]);
      i := i + 1;
    }
    TakeAll(placed);
  }

  /** The body of that walk. */
  method AddService(s: Overview, p: Placed, ghost before: seq<Placed>) returns (out: Overview)
    requires Counts(s, before)
    ensures Counts(out, before + [p])
  {
    var readings := AddReadings(s.readings, p, before);
    var tagged := AddKinds(s.tagged, p, before);
    var byMethod := AddMethod(s.byMethod, p, before);
    var declared := AddDeclaration(s.declared, p, before);
    out := Overview(readings, tagged, byMethod, declared);
  }

  // ---------------------------------------------------------------------------
  // The network counters
  // ---------------------------------------------------------------------------

  datatype NetworkCounts = NetworkCounts(networks: nat, connecting: nat, crossStack: nat, soloLocal: nat)

  predicate IsConnecting(net: N.Network) { net.Connecting() }
  predicate IsCrossStack(net: N.Network) { net.CrossStack() }
  predicate IsSoloLocal(net: N.Network) { net.SoloLocal() }

  /** The networks, in first-seen order. */
  function Listed(idx: N.Index, names: seq<string>): (r: seq<N.Network>)
    requires forall n :: n in names ==> n in idx.byName
    ensures |r| == |names| && forall i :: 0 <= i < |names| ==> r[i] == idx.byName[names[i]]
  {
    seq(|names|, i requires 0 <= i < |names| => idx.byName[names[i]])
  }

  ghost predicate Counted(c: NetworkCounts, nets: seq<N.Network>) {
    c == NetworkCounts(|nets|, Count(nets, IsConnecting), Count(nets, IsCrossStack), Count(nets, IsSoloLocal))
  }

  method CountNetworks(nets: seq<N.Network>) returns (c: NetworkCounts)
    ensures Counted(c, nets)
  {
    c := NetworkCounts(0, 0, 0, 0);
    var i := 0;
    while i < |nets|
      invariant 0 <= i <= |nets|
      invariant c == NetworkCounts(i, Count(nets[..i], IsConnecting), Count(nets[..i], IsCrossStack), Count(nets[..i], IsSoloLocal))
    {
      assert nets[..i + 1][..i] == nets[..i];
      c := c.(networks := c.networks + 1);
      if nets[i].Connecting() {
        c := c.(connecting := c.connecting + 1);
      }
      if nets[i].CrossStack() {
        c := c.(crossStack := c.crossStack + 1);
      }
      if nets[i].SoloLocal() {
        c := c.(soloLocal := c.soloLocal + 1);
      }
      i := i + 1;
    }
    assert nets[..i] == nets;
  }

  predicate IsDeclared(d: Dependency) { d.declared }

  method DeclaredDependencies(deps: seq<Dependency>) returns (n: nat)
    ensures n == Count(deps, IsDeclared)
  {
    n := 0;
    var i := 0;
    while i < |deps|
      invariant 0 <= i <= |deps| && n == Count(deps[..i], IsDeclared)
    {
      assert deps[..i + 1][..i] == deps[..i];
      if deps[i].declared {
        n := n + 1;
      }
      i := i + 1;
    }
    assert deps[..i] == deps;
  }
}
