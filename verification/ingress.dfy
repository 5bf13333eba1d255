/** The ingress sets of labview/internal/fleet/ingress.go. */
module Ingress {
  import opened Lists
  import opened Vocabulary
  import opened Fleet
  import opened Networks

  /** The members of `order` that are in `seen`, leaving out the kind that says nothing. */
  function Pick(order: seq<IngressKind>, seen: set<IngressKind>): seq<IngressKind> {
    if order == [] then [] else
      var k := order[|order| - 1];
      Pick(order[..|order| - 1], seen) + (if k in seen && !k.NoIngress? then [k] else [])
  }

  /** Canonical order, most exposed first; `none` only when there is nothing else to say. */
  function Canonical(seen: set<IngressKind>): seq<IngressKind> {
    var out := Pick(INGRESS_KINDS, seen);
    if out == [] then [NoIngress] else out
  }

  /** How far down the canonical order a kind stands. */
  function Exposure(k: IngressKind): nat {
    match k
    case Public => 0
    case Traefik => 1
    case Lan => 2
    case Internal => 3
    case NoIngress => 4
    case Blank => 5
  }

  predicate External(kinds: seq<IngressKind>) {
    exists k :: k in kinds && k.IsExternal()
  }

  method IsExternal(kinds: seq<IngressKind>) returns (yes: bool)
    ensures yes == External(kinds)
  {
    var i := 0;
    while i < |kinds|
      invariant 0 <= i <= |kinds| && forall j :: 0 <= j < i ==> !kinds[j].IsExternal()
    {
      if kinds[i].IsExternal() {
        return true;
      }
      i := i + 1;
    }
    yes := false;
  }

  /** The one constructor: `internal` is withheld from any set that already says something external. */
  function IngressSet(kinds: seq<IngressKind>): seq<IngressKind> {
    var seen := set k | k in kinds && !k.Blank?;
    Canonical(if External(kinds) then seen - {Internal, NoIngress} else seen)
  }

  method BuildIngressSet(kinds: seq<IngressKind>) returns (out: seq<IngressKind>)
    ensures out == IngressSet(kinds)
  {
    var seen: set<IngressKind> := {};
    var i := 0;
    while i < |kinds|
      invariant 0 <= i <= |kinds| && seen == set k | k in kinds[..i] && !k.Blank?
    {
      assert kinds[..i + 1] == kinds[..i] + [kinds[i]];
      if !kinds[i].Blank? {
        seen := seen + {kinds[i]};
      }
      i := i + 1;
    }
    assert kinds[..i] == kinds;
    if Public in seen || Traefik in seen || Lan in seen {
      seen := seen - {Internal, NoIngress};
    } else {
      assert forall k :: k in kinds && k.IsExternal() ==> k in seen;
    }
    out := [];
    i := 0;
    while i < |INGRESS_KINDS|
      invariant 0 <= i <= |INGRESS_KINDS| && out == Pick(INGRESS_KINDS[..i], seen)
    {
      assert INGRESS_KINDS[..i + 1][..i] == INGRESS_KINDS[..i];
      if INGRESS_KINDS[i] in seen && !INGRESS_KINDS[i].NoIngress? {
        out := out + [INGRESS_KINDS[i]];
      }
      i := i + 1;
    }
    assert INGRESS_KINDS[..i] == INGRESS_KINDS;
    if |out| == 0 {
      out := [NoIngress];
    }
  }

  lemma {:induction false} PickIs(order: seq<IngressKind>, seen: set<IngressKind>)
    requires Distinct(order)
    ensures forall k :: k in Pick(order, seen) <==> k in order && k in seen && !k.NoIngress?
    ensures Distinct(Pick(order, seen))
  {
    if order != [] {
      SplitLast(order);
      PickIs(order[..|order| - 1], seen);
    }
  }

  /** A set built here says exactly one of three things: something external, only `internal`, or nothing. It keeps
      every external kind given, repeats nothing, and is `internal` exactly when that was given and nothing external was. */
  lemma SetSaysOneThing(kinds: seq<IngressKind>)
    ensures var s := IngressSet(kinds);
      && Distinct(s)
      && (External(s) <==> External(kinds))
      && (Internal in s <==> !External(kinds) && Internal in kinds)
      && (NoIngress in s <==> !External(kinds) && Internal !in kinds)
      && (External(s) || s == [Internal] || s == [NoIngress])
      && forall k: IngressKind :: k.IsExternal() ==> (k in s <==> k in kinds)
  {
    var seen := set k | k in kinds && !k.Blank?;
    var kept := if External(kinds) then seen - {Internal, NoIngress} else seen;
    assert Distinct(INGRESS_KINDS);
    PickIs(INGRESS_KINDS, kept);
    var out := Pick(INGRESS_KINDS, kept);
    assert Public in INGRESS_KINDS && Traefik in INGRESS_KINDS && Lan in INGRESS_KINDS && Internal in INGRESS_KINDS by {
      assert INGRESS_KINDS[0] == Public && INGRESS_KINDS[1] == Traefik && INGRESS_KINDS[2] == Lan && INGRESS_KINDS[3] == Internal;
    }
    if External(kinds) {
      var k :| k in kinds && k.IsExternal();
      assert k in out;
    } else if Internal in kinds {
      assert out == [Internal] by { OnlyOne(out, Internal); }
    } else {
      NothingIn(out);
    }
  }

  predicate HasPublic(svc: Service) { exists r :: r in svc.cloudflare && r.hostname != "" }

  predicate HasRouter(svc: Service) { exists r :: r in svc.traefik && (|r.hosts| > 0 || r.rule != "") }

  /** One service's evidence, in the order of the table. */
  function Evidence(svc: Service, neighboured: bool): seq<IngressKind> {
    (if HasPublic(svc) then [Public] else []) + (if HasRouter(svc) then [Traefik] else [])
    + (if |svc.ports| > 0 then [Lan] else []) + (if |svc.expose| > 0 || neighboured then [Internal] else [])
  }

  method ServiceIngress(svc: Service, idx: Networks.Index, key: string) returns (out: seq<IngressKind>)
    requires forall n :: n in Of(idx, key) ==> n in idx.byName
    ensures out == IngressSet(Evidence(svc, Neighboured(idx, key)))
  {
    var kinds: seq<IngressKind> := [];
    var i := 0;
    while i < |svc.cloudflare|
      invariant 0 <= i <= |svc.cloudflare| && kinds == [] && forall j :: 0 <= j < i ==> svc.cloudflare[j].hostname == ""
    {
      if svc.cloudflare[i].hostname != "" {
        assert svc.cloudflare[i] in svc.cloudflare;
        kinds := kinds + [Public];
        break;
      }
      i := i + 1;
    }
    assert kinds == if HasPublic(svc) then [Public] else [];
    ghost var before := kinds;
    i := 0;
    while i < |svc.traefik|
      invariant 0 <= i <= |svc.traefik| && kinds == before
      invariant forall j :: 0 <= j < i ==> |svc.traefik[j].hosts| == 0 && svc.traefik[j].rule == ""
    {
      if |svc.traefik[i].hosts| > 0 || svc.traefik[i].rule != "" {
        assert svc.traefik[i] in svc.traefik;
        kinds := kinds + [Traefik];
        break;
      }
      i := i + 1;
    }
    assert kinds == before + if HasRouter(svc) then [Traefik] else [];
    if |svc.ports| > 0 {
      kinds := kinds + [Lan];
    }
    var near := HasNeighbour(idx, key);
    if |svc.expose| > 0 || near {
      kinds := kinds + [Internal];
    }
    assert kinds == Evidence(svc, Neighboured(idx, key));
    out := BuildIngressSet(kinds);
  }

  /** A service is tagged `internal` exactly when nothing outside can reach it and either it exposes a port or some
      other service of the fleet is on one of its networks; and it is tagged external exactly when it has a public
      hostname, a router, or a published port. */
  lemma InternalMeansOnlyNeighbours(svc: Service, ats: seq<Attachment>, external: set<string>, key: string)
    ensures var s := IngressSet(Evidence(svc, Neighboured(IndexOf(ats, external), key)));
      && (External(s) <==> HasPublic(svc) || HasRouter(svc) || |svc.ports| > 0)
      && (Internal in s <==> !External(s) && (|svc.expose| > 0 || exists other, n :: other != key && On(ats, key, n) && On(ats, other, n)))
  {
    var kinds := Evidence(svc, Neighboured(IndexOf(ats, external), key));
    SetSaysOneThing(kinds);
    NeighbourIsAnotherService(ats, external, key);
    EvidenceHas(svc, Neighboured(IndexOf(ats, external), key));
  }

  lemma EvidenceHas(svc: Service, neighboured: bool)
    ensures External(Evidence(svc, neighboured)) <==> HasPublic(svc) || HasRouter(svc) || |svc.ports| > 0
    ensures Internal in Evidence(svc, neighboured) <==> |svc.expose| > 0 || neighboured
  {
    var a, b := (if HasPublic(svc) then [Public] else []), (if HasRouter(svc) then [Traefik] else []);
    var c, d := (if |svc.ports| > 0 then [Lan] else []), (if |svc.expose| > 0 || neighboured then [Internal] else []);
    assert forall k :: k in Evidence(svc, neighboured) <==> k in a || k in b || k in c || k in d;
    assert Public in [Public] && Traefik in [Traefik] && Lan in [Lan] && Internal in [Internal];
  }

  /** The expected kinds not detected, and the detected kinds not expected, each in canonical order. */
  function Missing(expected: seq<IngressKind>, detected: seq<IngressKind>, order: seq<IngressKind>): seq<IngressKind> {
    if order == [] then [] else
      var k := order[|order| - 1];
      Missing(expected, detected, order[..|order| - 1]) + (if k in expected && k !in detected then [k] else [])
  }

  method MissingAndUnexpected(expected: seq<IngressKind>, detected: seq<IngressKind>)
    returns (missing: seq<IngressKind>, unexpected: seq<IngressKind>)
    ensures missing == Missing(expected, detected, INGRESS_KINDS)
    ensures unexpected == Missing(detected, expected, INGRESS_KINDS)
  {
    missing, unexpected := [], [];
    var i := 0;
    while i < |INGRESS_KINDS|
      invariant 0 <= i <= |INGRESS_KINDS|
      invariant missing == Missing(expected, detected, INGRESS_KINDS[..i])
      invariant unexpected == Missing(detected, expected, INGRESS_KINDS[..i])
    {
      var k := INGRESS_KINDS[i];
      assert INGRESS_KINDS[..i + 1][..i] == INGRESS_KINDS[..i];
      if k in expected && k !in detected {
        missing := missing + [k];
      } else if k in detected && k !in expected {
        unexpected := unexpected + [k];
      }
      i := i + 1;
    }
    assert INGRESS_KINDS[..i] == INGRESS_KINDS;
  }

  lemma {:induction false} MissingIs(expected: seq<IngressKind>, detected: seq<IngressKind>, order: seq<IngressKind>, k: IngressKind)
    ensures k in Missing(expected, detected, order) <==> k in order && k in expected && k !in detected
  {
    if order != [] {
      SplitLast(order);
      MissingIs(expected, detected, order[..|order| - 1], k);
    }
  }
}
