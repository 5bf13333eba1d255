/** The scanned fleet (labview/internal/payload/types.go, labview/internal/fleet/fleet.go), with the fields the
    relation engine reads and writes. */
module Fleet {
  import opened Options
  import opened Lists
  import opened Vocabulary

  /** An address taken apart; the taking apart is not part of this model. A host is folded to lower case. */
  datatype Address = Address(raw: string, host: string, port: string, isIP: bool, isBareName: bool)

  datatype OriginKind = SelfNetwork | SelfHostPort | FleetService | Unresolved

  datatype OriginTarget = OriginTarget(address: Address, kind: OriginKind, hopKey: string)

  /** A tunnel route; an empty `service` declares no origin. */
  datatype CloudRoute = CloudRoute(hostname: string, path: string, service: string, address: Address, origin: Option<OriginTarget>)

  datatype TraefikRoute = TraefikRoute(router: string, rule: string, hosts: seq<string>)

  datatype Mount = Mount(isVolume: bool, source: string, target: string)

  datatype Docker = Docker(name: string, ips: seq<string>, published: seq<string>, running: bool)

  datatype Provider = Provider(name: string, kind: ProviderKind, internalHost: string, externalHost: string,
                               forwardDomain: bool, redirects: seq<string>, backchannel: bool, outposts: seq<string>)

  datatype ProviderKind = Proxy | LdapProvider | Radius | OAuth2 | Saml | OtherProvider

  datatype Application = Application(name: string, slug: string, group: string, launchURL: string, providers: seq<Provider>, listed: bool)

  datatype Strength = AddressMatch | HostnameMatch | NameMatch

  /** The applications matched onto one service, with how and on what; the three lists are parallel. */
  datatype AuthentikMatch = AuthentikMatch(applications: seq<Application>, evidence: seq<string>, strength: seq<Strength>)

  datatype Mechanism = AppOIDC | AppLDAP | ExternalProxy | OtherMechanism(name: string)

  datatype Agreement = NoAgreement | Supplies | Redundant | Conflicts | Supplements

  datatype DeclaredDependency = DeclaredDependency(ref: string, detail: string)

  /** A drift or unconfirmed entry, by what it is about. */
  datatype Finding =
    | StaleAcceptance | ConflictingMechanism(declared: Mechanism, detected: AuthMethod) | RefusedReference(ref: string)
    | IngressMismatch(missing: seq<IngressKind>, unexpected: seq<IngressKind>)
    | Uncorroborated(mechanisms: seq<Mechanism>) | ProbeReadNoLogin

  datatype Declaration = Declaration(
    file: string, auth: seq<Mechanism>, dependsOn: seq<DeclaredDependency>, accepted: bool, expectedIngress: seq<IngressKind>,
    agreement: Agreement, drift: seq<Finding>, unconfirmed: seq<Finding>)

  /** `gate` is what the probe read, empty for none. */
  datatype Probe = Probe(answered: bool, gate: string)

  /** A note on a service, by what it is about. */
  datatype Note =
    | NotInStack(name: string) | NoSharedNetwork(target: string) | OriginUnresolved(address: Address)
    | AgreementNote(agreement: Agreement, mechanism: Mechanism)

  datatype Service = Service(
    name: string, containerName: string, dependsOn: seq<string>, networks: seq<string>, ports: seq<string>, expose: seq<string>,
    mounts: seq<Mount>, cloudflare: seq<CloudRoute>, traefik: seq<TraefikRoute>, ingress: seq<IngressKind>,
    auth: AuthMethod, exposedWithoutAuth: bool, docker: Option<Docker>, authentik: Option<AuthentikMatch>,
    declared: Option<Declaration>, probe: Option<Probe>, notes: seq<Note>)

  datatype NetworkDecl = NetworkDecl(name: string, external: bool)

  datatype Stack = Stack(id: string, projectName: string, services: seq<Service>, networks: seq<NetworkDecl>, volumes: seq<string>)

  /** How a service is named outside its own stack. */
  function ServiceKey(stack: string, service: string): string { stack + "/" + service }

  /** Where the first `/` stands, or the length. */
  function Slash(key: string): (i: nat)
    ensures i <= |key| && (i < |key| ==> key[i] == '/') && forall j :: 0 <= j < i ==> key[j] != '/'
  {
    if key == "" || key[0] == '/' then 0 else
      var i := Slash(key[1..]);
      assert forall j :: 0 < j < i + 1 ==> key[j] == key[1..][j - 1];
      i + 1
  }

  /** The stack and service halves of a key. */
  function SplitKey(key: string): (string, string) {
    var i := Slash(key);
    if i == |key| then (key, "") else (key[..i], key[i + 1..])
  }

  lemma SplitOfKey(stack: string, service: string)
    requires '/' !in stack
    ensures SplitKey(ServiceKey(stack, service)) == (stack, service)
  {
    var key := ServiceKey(stack, service);
    assert forall j :: 0 <= j < |stack| ==> key[j] == stack[j] != '/';
    assert key[|stack|] == '/';
    assert Slash(key) == |stack|;
    assert key[..|stack|] == stack && key[|stack| + 1..] == service;
  }

  /** One service where it stands. */
  datatype Placed = Placed(stackId: string, svc: Service) {
    function Key(): string { ServiceKey(stackId, svc.name) }
  }

  function InStack(stack: Stack): (r: seq<Placed>)
    ensures |r| == |stack.services| && forall i :: 0 <= i < |r| ==> r[i] == Placed(stack.id, stack.services[i])
  {
    seq(|stack.services|, i requires 0 <= i < |stack.services| => Placed(stack.id, stack.services[i]))
  }

  /** `each`: the whole fleet in scan order. */
  function Services(fleet: seq<Stack>): seq<Placed> {
    FlatMap(fleet, InStack)
  }

  function Keys(placed: seq<Placed>): (r: seq<string>)
    ensures |r| == |placed| && forall i :: 0 <= i < |r| ==> r[i] == placed[i].Key()
  {
    seq(|placed|, i requires 0 <= i < |placed| => placed[i].Key())
  }

  /** The naming rules a scan guarantees: stack ids hold no `/` and are unique, and so are service names in a stack. */
  ghost predicate WellNamed(placed: seq<Placed>) {
    && (forall p :: p in placed ==> '/' !in p.stackId)
    && forall i, j :: 0 <= i < j < |placed| ==> !(placed[i].stackId == placed[j].stackId && placed[i].svc.name == placed[j].svc.name)
  }

  /** Under the naming rules a key names one service. */
  lemma KeysAreDistinct(placed: seq<Placed>)
    requires WellNamed(placed)
    ensures Distinct(Keys(placed))
  {
    forall i, j | 0 <= i < j < |placed| ensures Keys(placed)[i] != Keys(placed)[j] {
      assert placed[i] in placed && placed[j] in placed;
      SplitOfKey(placed[i].stackId, placed[i].svc.name);
      SplitOfKey(placed[j].stackId, placed[j].svc.name);
    }
  }
}
