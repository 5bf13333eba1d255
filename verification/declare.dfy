/** What may be done with a sidecar file (labview/internal/declare/compare.go, drift.go): one comparison, and one walk
    that settles the exposure verdict, drift and what stays unconfirmed. */
module Declare {
  import opened Options
  import opened Lists
  import opened Grouping
  import opened Vocabulary
  import opened Fleet
  import opened Ingress
  import opened Depends

  // ---------------------------------------------------------------------------
  // Edge authentication (labview/internal/payload/types.go)
  // ---------------------------------------------------------------------------

  predicate ProviderEnforced(p: Provider) {
    match p.kind
    case Proxy => |p.outposts| > 0
    case LdapProvider => |p.outposts| > 0
    case Radius => |p.outposts| > 0
    case OAuth2 => true
    case Saml => true
    case OtherProvider => false
  }

  predicate Enforced(m: AuthentikMatch) {
    exists app :: app in m.applications && exists p :: p in app.providers && ProviderEnforced(p)
  }

  predicate ConfiguredEdgeAuth(svc: Service) {
    svc.auth.Detected() || (svc.authentik.Some? && Enforced(svc.authentik.value))
  }

  predicate ProbeGate(svc: Service) { svc.probe.Some? && svc.probe.value.gate != "" }

  predicate HasEdgeAuth(svc: Service) { ConfiguredEdgeAuth(svc) || ProbeGate(svc) }

  function DeclaredMechanisms(svc: Service): seq<Mechanism> { if svc.declared.Some? then svc.declared.value.auth else [] }

  predicate WouldBeExposed(svc: Service) { External(svc.ingress) && !HasEdgeAuth(svc) }

  // ---------------------------------------------------------------------------
  // Families and layers
  // ---------------------------------------------------------------------------

  datatype Family = Oidc | Ldap | ProxyGate {
    function LayerOf(): Layer { if ProxyGate? then Gate else App }
  }

  datatype Layer = App | Gate

  /** Partial: a method no declared mechanism describes has no family. */
  function DetectedFamily(m: AuthMethod): Option<Family> {
    match m
    case AuthentikOAuth => Some(Oidc)
    case OtherOAuth => Some(Oidc)
    case AuthentikLDAP => Some(Family.Ldap)
    case LDAP => Some(Family.Ldap)
    case AuthentikForwardAuth => Some(ProxyGate)
    case ForwardAuth => Some(ProxyGate)
    case _ => None
  }

  /** Partial for the same reason. */
  function DeclaredFamily(m: Mechanism): Option<Family> {
    match m
    case AppOIDC => Some(Oidc)
    case AppLDAP => Some(Family.Ldap)
    case ExternalProxy => Some(ProxyGate)
    case OtherMechanism(_) => None
  }

  /** How a declared mechanism stands to a detected one. */
  datatype Relation = SameFamily | SameLayer | OtherLayer

  predicate Related(rel: Relation, detected: AuthMethod, m: Mechanism) {
    var d, f := DeclaredFamily(m), DetectedFamily(detected);
    f.Some? && d.Some? &&
    match rel
    case SameFamily => d == f
    case SameLayer => d != f && d.value.LayerOf() == f.value.LayerOf()
    case OtherLayer => d.value.LayerOf() != f.value.LayerOf()
  }

  // ---------------------------------------------------------------------------
  // The comparison
  // ---------------------------------------------------------------------------

  datatype Comparison = Comparison(agreement: Agreement, mechanism: Option<Mechanism>)

  function First(rel: Relation, detected: AuthMethod, declared: seq<Mechanism>): Option<Mechanism> {
    if declared == [] then None
    else if Related(rel, detected, declared[0]) then Some(declared[0])
    else First(rel, detected, declared[1..])
  }

  method Search(rel: Relation, detected: AuthMethod, declared: seq<Mechanism>) returns (m: Option<Mechanism>)
    ensures m == First(rel, detected, declared)
  {
    var i := 0;
    while i < |declared|
      invariant 0 <= i <= |declared| && First(rel, detected, declared[i..]) == First(rel, detected, declared)
    {
      assert declared[i..][1..] == declared[i + 1..];
      if Related(rel, detected, declared[i]) {
        return Some(declared[i]);
      }
      i := i + 1;
    }
    m := None;
  }

  /** The outcomes in the order they are tested, each on the first declared mechanism that gives it. */
  function Compared(svc: Service, wouldBeExposed: bool): Comparison {
    var declared := DeclaredMechanisms(svc);
    if declared == [] then Comparison(NoAgreement, None)
    else if wouldBeExposed then Comparison(Supplies, Some(declared[0]))
    else if First(SameFamily, svc.auth, declared).Some? then Comparison(Redundant, First(SameFamily, svc.auth, declared))
    else if First(SameLayer, svc.auth, declared).Some? then Comparison(Conflicts, First(SameLayer, svc.auth, declared))
    else if First(OtherLayer, svc.auth, declared).Some? then Comparison(Supplements, First(OtherLayer, svc.auth, declared))
    else Comparison(NoAgreement, None)
  }

  method Compare(svc: Service, wouldBeExposed: bool) returns (c: Comparison)
    ensures c == Compared(svc, wouldBeExposed)
  {
    var declared := DeclaredMechanisms(svc);
    if declared == [] {
      return Comparison(NoAgreement, None);
    }
    if wouldBeExposed {
      return Comparison(Supplies, Some(declared[0]));
    }
    var m := Search(SameFamily, svc.auth, declared);
    if m.Some? {
      return Comparison(Redundant, m);
    }
    m := Search(SameLayer, svc.auth, declared);
    if m.Some? {
      return Comparison(Conflicts, m);
    }
    m := Search(OtherLayer, svc.auth, declared);
    if m.Some? {
      return Comparison(Supplements, m);
    }
    c := Comparison(NoAgreement, None);
  }

  /** The declared mechanisms of a layer in which nothing was detected; one with no family is never listed. */
  predicate Unanswered(detected: AuthMethod, m: Mechanism) {
    DeclaredFamily(m).Some? && (DetectedFamily(detected).None? || Related(OtherLayer, detected, m))
  }

  function Unconfirmed(detected: AuthMethod, declared: seq<Mechanism>): seq<Mechanism> {
    if declared == [] then [] else
      var m := declared[|declared| - 1];
      Unconfirmed(detected, declared[..|declared| - 1]) + (if Unanswered(detected, m) then [m] else [])
  }

  method UnconfirmedMechanisms(svc: Service) returns (out: seq<Mechanism>)
    ensures out == Unconfirmed(svc.auth, DeclaredMechanisms(svc))
  {
    var declared, i := DeclaredMechanisms(svc), 0;
    out := [];
    while i < |declared|
      invariant 0 <= i <= |declared| && out == Unconfirmed(svc.auth, declared[..i])
    {
      assert declared[..i + 1][..i] == declared[..i];
      if Unanswered(svc.auth, declared[i]) {
        out := out + [declared[i]];
      }
      i := i + 1;
    }
    assert declared[..i] == declared;
  }

  // ---------------------------------------------------------------------------
  // The walk
  // ---------------------------------------------------------------------------

  function FindingOf(r: Refusal): Finding { RefusedReference(r.ref) }

  function Findings(rs: seq<Refusal>): (out: seq<Finding>)
    ensures |out| == |rs| && forall i :: 0 <= i < |rs| ==> out[i] == FindingOf(rs[i])
  {
    seq(|rs|, i requires 0 <= i < |rs| => FindingOf(rs[i]))
  }

  function BySource(refused: seq<Refusal>): (r: seq<(string, Refusal)>)
    ensures |r| == |refused| && forall i :: 0 <= i < |r| ==> r[i] == (refused[i].source, refused[i])
  {
    seq(|refused|, i requires 0 <= i < |refused| => (refused[i].source, refused[i]))
  }

  /** The refusals of each service, in the order they were made. */
  method RefusalsByService(refused: seq<Refusal>) returns (m: map<string, seq<Refusal>>)
    ensures m == Collect(BySource(refused))
  {
    m := map[];
    var i := 0;
    while i < |refused|
      invariant 0 <= i <= |refused| && m == Collect(BySource(refused[..i]))
    {
      assert BySource(refused[..i + 1])[..i] == BySource(refused[..i]);
      m := Push(m, refused[i].source, refused[i]);
      i := i + 1;
    }
    assert refused[..i] == refused;
  }

  /** A declaration the scan contradicts, in the order it is tested. */
  function Drift(svc: Service, d: Declaration, c: Comparison, refused: seq<Refusal>): seq<Finding> {
    var missing, unexpected := Missing(d.expectedIngress, svc.ingress, INGRESS_KINDS), Missing(svc.ingress, d.expectedIngress, INGRESS_KINDS);
    (if d.accepted && !External(svc.ingress) then [StaleAcceptance] else [])
    + (if c.agreement.Conflicts? && c.mechanism.Some? then [ConflictingMechanism(c.mechanism.value, svc.auth)] else [])
    + Findings(refused)
    + (if d.expectedIngress != [] && (missing != [] || unexpected != []) then [IngressMismatch(missing, unexpected)] else [])
  }

  /** A declaration the scan could not corroborate. */
  function NotCorroborated(svc: Service, c: Comparison): seq<Finding> {
    var ms := Unconfirmed(svc.auth, DeclaredMechanisms(svc));
    (if ms != [] then [Uncorroborated(ms)] else [])
    + (if c.agreement.Supplies? && svc.probe.Some? && svc.probe.value.answered && svc.probe.value.gate == "" then [ProbeReadNoLogin] else [])
  }

  /** What the walk leaves of one service. */
  function Judged(svc: Service, refused: seq<Refusal>): Service {
    var c := Compared(svc, WouldBeExposed(svc));
    var verdict := svc.(exposedWithoutAuth := WouldBeExposed(svc) && DeclaredMechanisms(svc) == []);
    if svc.declared.None? then verdict
    else
      var d := svc.declared.value;
      verdict.(
        declared := Some(d.(agreement := c.agreement, drift := Drift(svc, d, c, refused), unconfirmed := NotCorroborated(svc, c))),
        notes := svc.notes + (if c.mechanism.Some? && (c.agreement.Supplies? || c.agreement.Supplements?)
                              then [AgreementNote(c.agreement, c.mechanism.value)] else []))
  }

  method Judge(svc: Service, refused: seq<Refusal>) returns (out: Service)
    ensures out == Judged(svc, refused)
  {
    var reachable := IsExternal(svc.ingress);
    var wouldBeExposed := reachable && !HasEdgeAuth(svc);
    var c := Compare(svc, wouldBeExposed);
    out := svc.(exposedWithoutAuth := wouldBeExposed && DeclaredMechanisms(svc) == []);
    if svc.declared.None? {
      return;
    }
    var d := svc.declared.value;
    var notes := svc.notes;
    if c.mechanism.Some? && (c.agreement.Supplies? || c.agreement.Supplements?) {
      notes := notes + [AgreementNote(c.agreement, c.mechanism.value)];
    }
    var drift := CollectDrift(svc, d, c, reachable, refused);
    var unconfirmed := CollectUnconfirmed(svc, c);
    out := out.(declared := Some(d.(agreement := c.agreement, drift := drift, unconfirmed := unconfirmed)), notes := notes);
  }

  /** The drift selector: every check that appends to it, in order. */
  method CollectDrift(svc: Service, d: Declaration, c: Comparison, reachable: bool, refused: seq<Refusal>) returns (drift: seq<Finding>)
    requires reachable == External(svc.ingress)
    ensures drift == Drift(svc, d, c, refused)
  {
    drift := [];
    if d.accepted && !reachable {
      drift := drift + [StaleAcceptance];
    }
    if c.agreement.Conflicts? && c.mechanism.Some? {
      drift := drift + [ConflictingMechanism(c.mechanism.value, svc.auth)];
    }
    drift := AddRefusals(drift, refused);
    if d.expectedIngress != [] {
      var missing, unexpected := MissingAndUnexpected(d.expectedIngress, svc.ingress);
      if missing != [] || unexpected != [] {
        drift := drift + [IngressMismatch(missing, unexpected)];
      }
    }
  }

  /** The other selector. */
  method CollectUnconfirmed(svc: Service, c: Comparison) returns (unconfirmed: seq<Finding>)
    ensures unconfirmed == NotCorroborated(svc, c)
  {
    unconfirmed := [];
    var ms := UnconfirmedMechanisms(svc);
    if ms != [] {
      unconfirmed := unconfirmed + [Uncorroborated(ms)];
    }
    if c.agreement.Supplies? && svc.probe.Some? && svc.probe.value.answered && svc.probe.value.gate == "" {
      unconfirmed := unconfirmed + [ProbeReadNoLogin];
    }
  }

  method AddRefusals(drift: seq<Finding>, refused: seq<Refusal>) returns (out: seq<Finding>)
    ensures out == drift + Findings(refused)
  {
    out := drift;
    var i := 0;
    while i < |refused|
      invariant 0 <= i <= |refused| && out == drift + Findings(refused[..i])
    {
      out := out + [FindingOf(refused[i])];
      i := i + 1;
    }
    assert refused[..i] == refused;
  }

  /** The refusals one service's references met, in order. */
  function RefusedBy(refused: seq<Refusal>, key: string): seq<Refusal> { Scan(BySource(refused), key) }

  /** One walk over the fleet, each service judged in place. */
  method Apply(fleet: array<Placed>, refused: seq<Refusal>)
    modifies fleet
    ensures forall i :: 0 <= i < fleet.Length ==>
      fleet[i] == old(fleet[i]).(svc := Judged(old(fleet[i]).svc, RefusedBy(refused, old(fleet[i]).Key())))
  {
    var refusals := RefusalsByService(refused);
    var i := 0;
    while i < fleet.Length
      invariant 0 <= i <= fleet.Length
      invariant forall j :: i <= j < fleet.Length ==> fleet[j] == old(fleet[j])
      invariant forall j :: 0 <= j < i ==>
        fleet[j] == old(fleet[j]).(svc := Judged(old(fleet[j]).svc, RefusedBy(refused, old(fleet[j]).Key())))
    {
      var p := fleet[i];
      CollectedIsScan(BySource(refused), p.Key());
      var svc := Judge(p.svc, Get(refusals, p.Key()));
      fleet[i] := p.(svc := svc);
      i := i + 1;
    }
  }

  // ---------------------------------------------------------------------------
  // What the walk concludes
  // ---------------------------------------------------------------------------

  ghost predicate Among(rel: Relation, detected: AuthMethod, declared: seq<Mechanism>) {
    exists m :: m in declared && Related(rel, detected, m)
  }

  lemma {:induction false} FirstIs(rel: Relation, detected: AuthMethod, declared: seq<Mechanism>)
    ensures var m := First(rel, detected, declared);
      && (m.Some? <==> Among(rel, detected, declared)) && (m.Some? ==> m.value in declared && Related(rel, detected, m.value))
  {
    if declared != [] {
      SplitFirst(declared);
      FirstIs(rel, detected, declared[1..]);
    }
  }

  lemma {:induction false} UnconfirmedIs(detected: AuthMethod, declared: seq<Mechanism>, m: Mechanism)
    ensures m in Unconfirmed(detected, declared) <==> m in declared && Unanswered(detected, m)
  {
    if declared != [] {
      SplitLast(declared);
      UnconfirmedIs(detected, declared[..|declared| - 1], m);
    }
  }

  /** What each agreement says of the service and its declaration; the five cases exclude one another. */
  lemma AgreementMeans(svc: Service)
    ensures var a, ms := Compared(svc, WouldBeExposed(svc)).agreement, DeclaredMechanisms(svc);
      var exposed, same, layer := WouldBeExposed(svc), Among(SameFamily, svc.auth, ms), Among(SameLayer, svc.auth, ms);
      && (a.Supplies? <==> ms != [] && exposed)
      && (a.Redundant? <==> !exposed && same)
      && (a.Conflicts? <==> !exposed && !same && layer)
      && (a.Supplements? <==> !exposed && !same && !layer && Among(OtherLayer, svc.auth, ms))
    ensures var c := Compared(svc, WouldBeExposed(svc));
      !c.agreement.NoAgreement? ==> c.mechanism.Some? && c.mechanism.value in DeclaredMechanisms(svc)
  {
    var ms := DeclaredMechanisms(svc);
    FirstIs(SameFamily, svc.auth, ms);
    FirstIs(SameLayer, svc.auth, ms);
    FirstIs(OtherLayer, svc.auth, ms);
  }

  /** Drift and unconfirmed never take the same mechanism: one the scan contradicts is answered, one that supplements
      is not, and when a declaration is the only gate every mechanism of a known family is unanswered. */
  lemma DriftIsNotUnconfirmed(svc: Service, m: Mechanism)
    ensures var c, ms := Compared(svc, WouldBeExposed(svc)), Unconfirmed(svc.auth, DeclaredMechanisms(svc));
      && (c == Comparison(Conflicts, Some(m)) ==> m !in ms)
      && (c == Comparison(Redundant, Some(m)) ==> m !in ms)
      && (c == Comparison(Supplements, Some(m)) ==> m in ms)
      && (c.agreement.Supplies? ==> (m in ms <==> m in DeclaredMechanisms(svc) && DeclaredFamily(m).Some?))
  {
    var ms := DeclaredMechanisms(svc);
    FirstIs(SameFamily, svc.auth, ms);
    FirstIs(SameLayer, svc.auth, ms);
    FirstIs(OtherLayer, svc.auth, ms);
    UnconfirmedIs(svc.auth, ms, m);
  }

  /** A declaration changes no detection: whatever it claims, the walk leaves what was read of the service alone, and
      with it every verdict the walk would reach again. */
  lemma DetectionsStand(svc: Service, refused: seq<Refusal>)
    ensures var out := Judged(svc, refused);
      && out.auth == svc.auth && out.ingress == svc.ingress && out.authentik == svc.authentik && out.probe == svc.probe
      && DeclaredMechanisms(out) == DeclaredMechanisms(svc) && WouldBeExposed(out) == WouldBeExposed(svc)
      && Compared(out, WouldBeExposed(out)) == Compared(svc, WouldBeExposed(svc))
      && (out.declared.Some? ==> Judged(out, refused).declared == out.declared)
  {
  }

  /** A service the scan could walk into is settled one of two ways, and no other service is settled either way. */
  lemma ExposureIsSettledOnce(svc: Service, refused: seq<Refusal>)
    ensures var out := Judged(svc, refused);
      var supplied := out.declared.Some? && out.declared.value.agreement.Supplies?;
      && (WouldBeExposed(svc) <==> out.exposedWithoutAuth || supplied) && !(out.exposedWithoutAuth && supplied)
  {
    AgreementMeans(svc);
  }

  /** The stale-acceptance check asks only whether the service is reachable. An acceptance therefore outlives its
      exposure, unreported, exactly on a reachable service that has a gate. */
  lemma StaleAsksOnlyReachability(svc: Service, refused: seq<Refusal>)
    requires svc.declared.Some?
    ensures var stale := StaleAcceptance in Judged(svc, refused).declared.value.drift;
      && (stale <==> svc.declared.value.accepted && !External(svc.ingress))
      && (svc.declared.value.accepted && !WouldBeExposed(svc) && !stale
          <==> svc.declared.value.accepted && External(svc.ingress) && HasEdgeAuth(svc))
  {
    var d, c := svc.declared.value, Compared(svc, WouldBeExposed(svc));
    DriftHas(svc, d, c, refused, StaleAcceptance);
  }

  /** Such a service: exposed when its exposure was accepted, later given a gate, and told of nothing either time. */
  lemma AcceptanceOutlivesExposure() returns (before: Service, after: Service)
    ensures after == before.(auth := ForwardAuth) && before.declared.Some? && before.declared.value.accepted
    ensures WouldBeExposed(before) && !WouldBeExposed(after)
    ensures Judged(before, []).exposedWithoutAuth && !Judged(after, []).exposedWithoutAuth
    ensures Judged(after, []).declared.Some? && Judged(after, []).declared.value.accepted
    ensures Judged(after, []).declared.value.drift == [] && Judged(after, []).declared.value.unconfirmed == []
  {
    before := Service("wiki", "", [], [], [], [], [], [], [], [Public], NoAuth, false, None, None,
                      Some(Declaration("wiki.yml", [], [], true, [], NoAgreement, [], [])), None, []);
    after := before.(auth := ForwardAuth);
    assert before.ingress[0].IsExternal();
  }

  lemma DriftHas(svc: Service, d: Declaration, c: Comparison, refused: seq<Refusal>, f: Finding)
    ensures f in Drift(svc, d, c, refused) <==>
      || (f.StaleAcceptance? && d.accepted && !External(svc.ingress))
      || (f.ConflictingMechanism? && c == Comparison(Conflicts, Some(f.declared)) && f.detected == svc.auth)
      || (exists r :: r in refused && f == FindingOf(r))
      || (f.IngressMismatch? && d.expectedIngress != [] && (f.missing != [] || f.unexpected != [])
          && f.missing == Missing(d.expectedIngress, svc.ingress, INGRESS_KINDS)
          && f.unexpected == Missing(svc.ingress, d.expectedIngress, INGRESS_KINDS))
  {
    var missing, unexpected := Missing(d.expectedIngress, svc.ingress, INGRESS_KINDS), Missing(svc.ingress, d.expectedIngress, INGRESS_KINDS);
    var a := if d.accepted && !External(svc.ingress) then [StaleAcceptance] else [];
    var b := if c.agreement.Conflicts? && c.mechanism.Some? then [ConflictingMechanism(c.mechanism.value, svc.auth)] else [];
    var e := if d.expectedIngress != [] && (missing != [] || unexpected != []) then [IngressMismatch(missing, unexpected)] else [];
    assert f in Drift(svc, d, c, refused) <==> f in a || f in b || f in Findings(refused) || f in e;
    if r :| r in refused && f == FindingOf(r) {
      var i :| 0 <= i < |refused| && refused[i] == r;
      assert Findings(refused)[i] == f;
    }
  }
}
