/** What the sidecar walk concludes (labview/internal/declare), told by the methods, the providers and the mechanisms
    themselves: who counts as gated, what each agreement compares, what is left unconfirmed, and what is written down. */
module DeclareMeanings {
  import opened Options
  import opened Lists
  import opened Grouping
  import opened Vocabulary
  import opened Fleet
  import opened Ingress
  import opened Depends
  import opened Declare

  // ---------------------------------------------------------------------------
  // The verdict
  // ---------------------------------------------------------------------------

  /** OAuth and SAML are enforced by the provider itself, the other kinds by the outposts that carry them. */
  ghost predicate Gates(p: Provider) {
    p.kind.OAuth2? || p.kind.Saml? || ((p.kind.Proxy? || p.kind.LdapProvider? || p.kind.Radius?) && p.outposts != [])
  }

  ghost predicate Gated(svc: Service) {
    || !(svc.auth.NoAuth? || svc.auth.Unset?)
    || (svc.authentik.Some? && exists app, p :: app in svc.authentik.value.applications && p in app.providers && Gates(p))
    || (svc.probe.Some? && svc.probe.value.gate != "")
  }

  ghost predicate FromOutside(svc: Service) { Public in svc.ingress || Traefik in svc.ingress || Lan in svc.ingress }

  lemma EdgeAuthMeans(svc: Service)
    ensures HasEdgeAuth(svc) <==> Gated(svc)
  {
    forall p: Provider ensures ProviderEnforced(p) <==> Gates(p) {}
    if svc.authentik.Some? {
      EnforcedMeans(svc.authentik.value);
    }
  }

  lemma EnforcedMeans(m: AuthentikMatch)
    ensures Enforced(m) <==> exists app, p :: app in m.applications && p in app.providers && Gates(p)
  {
    if app, p :| app in m.applications && p in app.providers && Gates(p) {
      assert ProviderEnforced(p);
    }
    if app :| app in m.applications && exists p :: p in app.providers && ProviderEnforced(p) {
      var p :| p in app.providers && ProviderEnforced(p);
      assert Gates(p);
    }
  }

  lemma ReachMeans(svc: Service)
    ensures External(svc.ingress) <==> FromOutside(svc)
  {
    if k :| k in svc.ingress && k.IsExternal() {
      assert k.Public? || k.Traefik? || k.Lan?;
    }
    assert Public.IsExternal() && Traefik.IsExternal() && Lan.IsExternal();
  }

  /** A service is exposed exactly when something outside reaches it, nothing gates it, and nobody declared a gate. */
  lemma ExposedMeans(svc: Service, refused: seq<Refusal>)
    ensures WouldBeExposed(svc) <==> FromOutside(svc) && !Gated(svc)
    ensures Judged(svc, refused).exposedWithoutAuth <==>
      FromOutside(svc) && !Gated(svc) && (svc.declared.None? || svc.declared.value.auth == [])
  {
    EdgeAuthMeans(svc);
    ReachMeans(svc);
  }

  // ---------------------------------------------------------------------------
  // The comparison
  // ---------------------------------------------------------------------------

  ghost predicate ByOAuth(a: AuthMethod) { a.AuthentikOAuth? || a.OtherOAuth? }
  ghost predicate ByDirectory(a: AuthMethod) { a.AuthentikLDAP? || a.LDAP? }
  ghost predicate AtTheProxy(a: AuthMethod) { a.AuthentikForwardAuth? || a.ForwardAuth? }

  /** The mechanism is what was detected. */
  ghost predicate Confirms(a: AuthMethod, m: Mechanism) {
    (m.AppOIDC? && ByOAuth(a)) || (m.AppLDAP? && ByDirectory(a)) || (m.ExternalProxy? && AtTheProxy(a))
  }

  /** The application was said to log in one way and was found to log in the other. */
  ghost predicate Contradicts(a: AuthMethod, m: Mechanism) { (m.AppOIDC? && ByDirectory(a)) || (m.AppLDAP? && ByOAuth(a)) }

  /** A login of the application's own beside a gate at the proxy, or the other way about. */
  ghost predicate Adds(a: AuthMethod, m: Mechanism) {
    ((m.AppOIDC? || m.AppLDAP?) && AtTheProxy(a)) || (m.ExternalProxy? && (ByOAuth(a) || ByDirectory(a)))
  }

  lemma RelationsMean(a: AuthMethod, m: Mechanism)
    ensures (Related(SameFamily, a, m) <==> Confirms(a, m)) && (Related(SameLayer, a, m) <==> Contradicts(a, m))
    ensures Related(OtherLayer, a, m) <==> Adds(a, m)
  {
  }

  /** The first mechanism of the list of which something holds. */
  ghost predicate FirstOf(ms: seq<Mechanism>, p: Mechanism -> bool, m: Mechanism) {
    exists i :: 0 <= i < |ms| && ms[i] == m && p(m) && forall j :: 0 <= j < i ==> !p(ms[j])
  }

  lemma {:induction false} FirstStands(rel: Relation, a: AuthMethod, ms: seq<Mechanism>, m: Mechanism)
    requires First(rel, a, ms) == Some(m)
    ensures FirstOf(ms, x => Related(rel, a, x), m)
  {
    var p := x => Related(rel, a, x);
    if Related(rel, a, ms[0]) {
      assert ms[0] == m && p(m);
    } else {
      FirstStands(rel, a, ms[1..], m);
      var i :| 0 <= i < |ms[1..]| && ms[1..][i] == m && p(m) && forall j :: 0 <= j < i ==> !p(ms[1..][j]);
      assert ms[i + 1] == m && forall j :: 0 <= j < i + 1 ==> !p(ms[j]);
    }
  }

  ghost predicate SomeOf(ms: seq<Mechanism>, p: Mechanism -> bool) { exists m :: m in ms && p(m) }

  ghost function Confirming(a: AuthMethod): Mechanism -> bool { x => Confirms(a, x) }
  ghost function Contradicting(a: AuthMethod): Mechanism -> bool { x => Contradicts(a, x) }
  ghost function Adding(a: AuthMethod): Mechanism -> bool { x => Adds(a, x) }

  lemma AmongMeans(a: AuthMethod, ms: seq<Mechanism>)
    ensures Among(SameFamily, a, ms) <==> SomeOf(ms, Confirming(a))
    ensures Among(SameLayer, a, ms) <==> SomeOf(ms, Contradicting(a))
    ensures Among(OtherLayer, a, ms) <==> SomeOf(ms, Adding(a))
  {
    forall m
      ensures Related(SameFamily, a, m) <==> Confirming(a)(m)
      ensures Related(SameLayer, a, m) <==> Contradicting(a)(m)
      ensures Related(OtherLayer, a, m) <==> Adding(a)(m)
    {
      RelationsMean(a, m);
    }
  }

  /** What each agreement compares. On an exposed service the declaration is the only gate; otherwise it says what was
      found, contradicts it, or adds to it, the first of these that any mechanism gives. */
  lemma AgreementComparesMethods(svc: Service)
    ensures var a, ms := Compared(svc, WouldBeExposed(svc)).agreement, DeclaredMechanisms(svc);
      var open := FromOutside(svc) && !Gated(svc);
      && (a.Supplies? <==> ms != [] && open)
      && (a.Redundant? <==> !open && SomeOf(ms, Confirming(svc.auth)))
      && (a.Conflicts? <==> !open && !SomeOf(ms, Confirming(svc.auth)) && SomeOf(ms, Contradicting(svc.auth)))
      && (a.Supplements? <==> !open && !SomeOf(ms, Confirming(svc.auth)) && !SomeOf(ms, Contradicting(svc.auth))
                              && SomeOf(ms, Adding(svc.auth)))
  {
    ExposedMeans(svc, []);
    AgreementMeans(svc);
    AmongMeans(svc.auth, DeclaredMechanisms(svc));
  }

  /** And the mechanism named beside it is the first declared one that gives it. */
  lemma FirstMechanismIsNamed(svc: Service)
    ensures var c, ms := Compared(svc, WouldBeExposed(svc)), DeclaredMechanisms(svc);
      && (c.agreement.NoAgreement? <==> c.mechanism.None?)
      && (c.agreement.Supplies? ==> ms != [] && c.mechanism == Some(ms[0]))
      && (c.agreement.Redundant? ==> FirstOf(ms, x => Related(SameFamily, svc.auth, x), c.mechanism.value))
      && (c.agreement.Conflicts? ==> FirstOf(ms, x => Related(SameLayer, svc.auth, x), c.mechanism.value))
      && (c.agreement.Supplements? ==> FirstOf(ms, x => Related(OtherLayer, svc.auth, x), c.mechanism.value))
  {
    var c, ms := Compared(svc, WouldBeExposed(svc)), DeclaredMechanisms(svc);
    if c.agreement.Redundant? {
      FirstStands(SameFamily, svc.auth, ms, c.mechanism.value);
    } else if c.agreement.Conflicts? {
      FirstStands(SameLayer, svc.auth, ms, c.mechanism.value);
    } else if c.agreement.Supplements? {
      FirstStands(OtherLayer, svc.auth, ms, c.mechanism.value);
    }
  }

  // ---------------------------------------------------------------------------
  // What is written down
  // ---------------------------------------------------------------------------

  /** A login said to be the application's own where none was found there, or a gate said to stand at the proxy where
      none was found there. */
  ghost predicate Unseen(a: AuthMethod, m: Mechanism) {
    ((m.AppOIDC? || m.AppLDAP?) && !ByOAuth(a) && !ByDirectory(a)) || (m.ExternalProxy? && !AtTheProxy(a))
  }

  lemma UnansweredMeans(a: AuthMethod, m: Mechanism)
    ensures Unanswered(a, m) <==> Unseen(a, m)
  {
    RelationsMean(a, m);
  }

  /** The unconfirmed entries: one that lists exactly the declared mechanisms found nowhere, when there are any; and one
      when the declaration is the only gate and the probe read the page and met no login. */
  lemma UnconfirmedMeans(svc: Service, refused: seq<Refusal>)
    requires svc.declared.Some?
    ensures var out, ms := Judged(svc, refused).declared.value.unconfirmed, Unconfirmed(svc.auth, svc.declared.value.auth);
      && (forall f :: f in out <==>
            || (f == Uncorroborated(ms) && ms != [])
            || (f.ProbeReadNoLogin? && FromOutside(svc) && !Gated(svc) && svc.declared.value.auth != []
                && svc.probe.Some? && svc.probe.value.answered && svc.probe.value.gate == ""))
      && forall m :: m in ms <==> m in svc.declared.value.auth && Unseen(svc.auth, m)
  {
    var ms, c := Unconfirmed(svc.auth, svc.declared.value.auth), Compared(svc, WouldBeExposed(svc));
    AgreementComparesMethods(svc);
    forall m ensures m in ms <==> m in svc.declared.value.auth && Unseen(svc.auth, m) {
      UnconfirmedIs(svc.auth, svc.declared.value.auth, m);
      UnansweredMeans(svc.auth, m);
    }
    EntriesAre(svc, c, ms);
  }

  lemma EntriesAre(svc: Service, c: Comparison, ms: seq<Mechanism>)
    requires svc.declared.Some? && ms == Unconfirmed(svc.auth, svc.declared.value.auth)
    ensures forall f :: f in NotCorroborated(svc, c) <==>
      || (f == Uncorroborated(ms) && ms != [])
      || (f.ProbeReadNoLogin? && c.agreement.Supplies? && svc.probe.Some? && svc.probe.value.answered && svc.probe.value.gate == "")
  {
  }

  lemma {:induction false} UnconfirmedKeepsOrder(a: AuthMethod, ms: seq<Mechanism>)
    ensures Unconfirmed(a, ms) == Filter(ms, m => Unanswered(a, m))
  {
    if ms != [] {
      UnconfirmedKeepsOrder(a, ms[..|ms| - 1]);
    }
  }

  /** The refusals a service is told of are its own. */
  lemma RefusedByMeans(refused: seq<Refusal>, key: string, r: Refusal)
    ensures r in RefusedBy(refused, key) <==> r in refused && r.source == key
  {
    ScanHas(BySource(refused), key, r);
    if r in refused && r.source == key {
      var i :| 0 <= i < |refused| && refused[i] == r;
      assert BySource(refused)[i] == (key, r);
    }
    if (key, r) in BySource(refused) {
      var i :| 0 <= i < |refused| && BySource(refused)[i] == (key, r);
      assert refused[i] in refused;
    }
  }

  /** The walk writes three things on a service and nothing else: the verdict, the findings of its declaration, and one
      note when the declaration is the only gate or adds one. */
  lemma OnlyFindingsAreWritten(svc: Service, refused: seq<Refusal>)
    ensures var out, c := Judged(svc, refused), Compared(svc, WouldBeExposed(svc));
      && out == svc.(exposedWithoutAuth := out.exposedWithoutAuth, declared := out.declared, notes := out.notes)
      && (out.declared.Some? <==> svc.declared.Some?)
      && (svc.declared.Some? ==>
            var was, now := svc.declared.value, out.declared.value;
            now == was.(agreement := c.agreement, drift := now.drift, unconfirmed := now.unconfirmed))
      && out.notes == svc.notes +
           if svc.declared.Some? && c.mechanism.Some? && (c.agreement.Supplies? || c.agreement.Supplements?)
           then [AgreementNote(c.agreement, c.mechanism.value)] else []
  {
  }

  /** The drift entries, each by what the scan says against the declaration. */
  lemma DriftMeans(svc: Service, refused: seq<Refusal>, f: Finding)
    requires svc.declared.Some?
    ensures var d, c := svc.declared.value, Compared(svc, WouldBeExposed(svc));
      f in Judged(svc, refused).declared.value.drift <==>
        || (f.StaleAcceptance? && d.accepted && !FromOutside(svc))
        || (f.ConflictingMechanism? && f.detected == svc.auth && c.agreement.Conflicts? && c.mechanism == Some(f.declared))
        || (f.RefusedReference? && exists r :: r in refused && r.ref == f.ref)
        || (f.IngressMismatch? && d.expectedIngress != [] && (f.missing != [] || f.unexpected != [])
            && f.missing == Missing(d.expectedIngress, svc.ingress, INGRESS_KINDS)
            && f.unexpected == Missing(svc.ingress, d.expectedIngress, INGRESS_KINDS))
  {
    DriftHas(svc, svc.declared.value, Compared(svc, WouldBeExposed(svc)), refused, f);
    ReachMeans(svc);
    assert (exists r :: r in refused && f == FindingOf(r)) <==> f.RefusedReference? && exists r :: r in refused && r.ref == f.ref;
  }
}
