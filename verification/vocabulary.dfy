/** The closed sets of labview/internal/payload/vocab.go that the analysis ranks and counts by. */
module Vocabulary {
  /** `Unset` is the empty method; `Unlisted` is a member this version does not know. */
  datatype AuthMethod =
    | AuthentikForwardAuth | AuthentikOAuth | AuthentikLDAP | ForwardAuth | OtherOAuth | LDAP | BasicAuth | NoAuth
    | Unset | Unlisted(name: string)
  {
    /** The position in the precedence order; an unknown member ranks after every known one. */
    function Rank(): nat {
      match this
      case AuthentikForwardAuth => 0
      case AuthentikOAuth => 1
      case AuthentikLDAP => 2
      case ForwardAuth => 3
      case OtherOAuth => 4
      case LDAP => 5
      case BasicAuth => 6
      case NoAuth => 7
      case _ => 8
    }

    predicate Detected() {
      !NoAuth? && !Unset?
    }
  }

  /** The precedence order, strongest first. */
  const AUTH_METHODS :=
    [AuthentikForwardAuth, AuthentikOAuth, AuthentikLDAP, ForwardAuth, OtherOAuth, LDAP, BasicAuth, NoAuth]

  datatype Confidence = Confirmed | Observed | Inferred | UnlistedConfidence(name: string) {
    function Rank(): nat {
      match this
      case Confirmed => 0
      case Observed => 1
      case Inferred => 2
      case UnlistedConfidence(_) => 3
    }
  }

  /** `Blank` is the empty kind. */
  datatype IngressKind = Public | Traefik | Lan | Internal | NoIngress | Blank {
    predicate IsExternal() { Public? || Traefik? || Lan? }
  }

  const INGRESS_KINDS := [Public, Traefik, Lan, Internal, NoIngress]

  /** One line of evidence or one note. The wording is left out; what the line is about is not. */
  datatype Line =
    | Applies(router: string, ref: string)
    | DefinedIn(bare: string, stack: string, service: string)
    | NameIsEvidence(bare: string)
    | NamesProvider(hint: string)
    | ProviderUnknown
    | ThroughChain(bare: string, stack: string, service: string)
    | Undefined(ref: string, router: string)
    | NoGateNamed
    | Carried(outposts: seq<string>)
    | Also(auth: AuthMethod, confidence: Confidence, detail: string)
    | Other(text: string)

  /** One account of one service's gate. */
  datatype Account = Account(
    auth: AuthMethod, detail: string, confidence: Confidence, evidence: seq<Line>, address: string, live: bool)
}
