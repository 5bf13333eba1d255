/** What each account of a middleware walk says (labview/internal/labels/posture.go), read off the registry and the hints
    at the gate it is of, and off the chains it came through. */
module MiddlewareAccounts {
  import opened Options
  import opened Lists
  import opened Text
  import opened Vocabulary
  import opened Middlewares
  import opened Chains

  /** The forward-auth of a provider is that provider's exactly when a hint names it. */
  function Attributed(named: bool): AuthMethod { if named then AuthentikForwardAuth else ForwardAuth }

  function ProviderLine(hint: Option<string>): Line { if hint.Some? then NamesProvider(hint.value) else ProviderUnknown }

  /** A defined forward-auth: observed, at the address defined, and whose it is by that address alone. */
  ghost predicate OfForward(inp: Input, a: Account, b: string, address: string) {
    && a.confidence == Observed && a.address == Trim(address)
    && a.auth == Attributed(inp.reading.hint(Trim(address)).Some?)
    && |a.evidence| >= 3 && a.evidence[2] == ProviderLine(inp.reading.hint(Trim(address)))
  }

  /** A defined password prompt. */
  ghost predicate OfPassword(a: Account) { a.confidence == Observed && a.auth == BasicAuth && a.address == "" }

  ghost predicate OfDefinition(inp: Input, a: Account, b: string)
    requires b in inp.registry
  {
    var def := inp.registry[b];
    && |a.evidence| >= 2 && a.evidence[1] == DefinedIn(b, def.stack, def.service)
    && match def.kind
       case Forward(address) => OfForward(inp, a, b, address)
       case Basic => OfPassword(a)
       case Digest => OfPassword(a)
       case Chain(_) => false
       case Plain => false
  }

  /** A name no stack defines: inferred, with no address, and Authentik's exactly when the name says so. */
  ghost predicate OfName(inp: Input, a: Account, b: string) {
    && inp.reading.gateName(b) && a.confidence == Inferred && a.address == ""
    && a.auth == Attributed(inp.reading.authentikName(b) || inp.reading.hint(b).Some?)
    && |a.evidence| >= 3 && a.evidence[1] == NameIsEvidence(b)
    && a.evidence[2] == if inp.reading.authentikName(b) then NamesProvider("authentik") else ProviderLine(inp.reading.hint(b))
  }

  /** The account is of the gate its detail names, and opens with the reference and the router it was read on. */
  ghost predicate Tells(inp: Input, router: string, a: Account) {
    var b := GateOf(a);
    && !a.live && b != "" && |a.evidence| >= 1 && a.evidence[0].Applies? && a.evidence[0].router == router
    && Trim(a.evidence[0].ref) == a.detail
    && if b in inp.registry then OfDefinition(inp, a, b) else OfName(inp, a, b)
  }

  /** How many lines are the gate's own. */
  function OwnLines(inp: Input, b: string): nat {
    if b in inp.registry && !inp.registry[b].kind.Forward? then 2 else 3
  }

  /** The lines after those are the chains from `root` to the gate, the nearest to the gate first. */
  ghost predicate ThroughChains(inp: Input, root: string, gate: string, lines: seq<Line>)
    decreases |lines|
  {
    if lines == [] then root == gate
    else
      var n := |lines| - 1;
      && root in inp.registry && lines[n] == ThroughChain(root, inp.registry[root].stack, inp.registry[root].service)
      && exists m :: Link(inp.registry, root, m) && ThroughChains(inp, m, gate, lines[..n])
  }

  ghost predicate CameFrom(inp: Input, root: string, a: Account) {
    OwnLines(inp, GateOf(a)) <= |a.evidence| && ThroughChains(inp, root, GateOf(a), a.evidence[OwnLines(inp, GateOf(a))..])
  }

  // ---------------------------------------------------------------------------
  // One gate
  // ---------------------------------------------------------------------------

  lemma DefinitionTells(inp: Input, ref: string, router: string)
    requires BareName(ref) != "" && BareName(ref) in inp.registry && inp.registry[BareName(ref)].IsAuth()
    ensures var a := FromDefinition(inp, inp.registry[BareName(ref)], ref, router);
      Tells(inp, router, a) && CameFrom(inp, BareName(ref), a)
  {
    GateOfReported(ref);
    var a := FromDefinition(inp, inp.registry[BareName(ref)], ref, router);
    assert a.evidence[OwnLines(inp, GateOf(a))..] == [];
  }

  lemma NameTells(inp: Input, ref: string, router: string)
    requires BareName(ref) != "" && BareName(ref) !in inp.registry && FromName(inp, ref, router).0 != []
    ensures var accounts := FromName(inp, ref, router).0;
      |accounts| == 1 && Tells(inp, router, accounts[0]) && CameFrom(inp, BareName(ref), accounts[0])
  {
    GateOfReported(ref);
    var a := FromName(inp, ref, router).0[0];
    assert a.evidence[3..] == [];
  }

  // ---------------------------------------------------------------------------
  // Through chains
  // ---------------------------------------------------------------------------

  lemma TellsThrough(inp: Input, router: string, a: Account, line: Line)
    requires Tells(inp, router, a)
    ensures Tells(inp, router, a.(evidence := a.evidence + [line]))
  {
  }

  lemma CameThrough(inp: Input, chain: string, m: string, a: Account)
    requires CameFrom(inp, m, a) && chain in inp.registry && Link(inp.registry, chain, m)
    ensures CameFrom(inp, chain, a.(evidence := a.evidence + [ThroughChain(chain, inp.registry[chain].stack, inp.registry[chain].service)]))
  {
    var line := ThroughChain(chain, inp.registry[chain].stack, inp.registry[chain].service);
    var n := OwnLines(inp, GateOf(a));
    var lines := (a.evidence + [line])[n..];
    assert lines == a.evidence[n..] + [line];
    assert lines[..|lines| - 1] == a.evidence[n..];
  }

  lemma {:induction false} WalkTells(inp: Input, ref: string, router: string, depth: nat, seen: set<string>, a: Account)
    requires a in Classify(inp, ref, router, depth, seen).accounts
    ensures Tells(inp, router, a) && CameFrom(inp, BareName(ref), a)
    decreases MAX_CHAIN_DEPTH + 1 - depth, 1, 0
  {
    var bare := BareName(ref);
    if bare !in inp.registry {
      NameTells(inp, ref, router);
    } else if inp.registry[bare].IsAuth() {
      DefinitionTells(inp, ref, router);
    } else {
      ChainTells(inp, bare, inp.registry[bare].kind.members, router, depth, seen + {bare}, a);
    }
  }

  lemma {:induction false} ChainTells(inp: Input, chain: string, members: seq<string>, router: string, depth: nat, seen: set<string>, a: Account)
    requires depth <= MAX_CHAIN_DEPTH && chain in inp.registry && inp.registry[chain].kind.Chain?
    requires members <= inp.registry[chain].kind.members
    requires var def := inp.registry[chain];
      a in ClassifyAll(inp, members, ThroughChain(chain, def.stack, def.service), router, depth, seen).accounts
    ensures Tells(inp, router, a) && CameFrom(inp, chain, a)
    decreases MAX_CHAIN_DEPTH + 1 - depth, 0, |members|
  {
    var def := inp.registry[chain];
    var line := ThroughChain(chain, def.stack, def.service);
    var n := |members| - 1;
    var rest := ClassifyAll(inp, members[..n], line, router, depth, seen);
    if a in rest.accounts {
      ChainTells(inp, chain, members[..n], router, depth, seen, a);
    } else {
      var last := Classify(inp, members[n], router, depth + 1, rest.seen);
      var i :| 0 <= i < |last.accounts| && Through(last.accounts, line)[i] == a;
      MemberTells(inp, chain, members, router, depth, rest.seen, last.accounts[i]);
    }
  }

  lemma {:induction false} MemberTells(inp: Input, chain: string, members: seq<string>, router: string, depth: nat, seen: set<string>, a: Account)
    requires depth <= MAX_CHAIN_DEPTH && chain in inp.registry && inp.registry[chain].kind.Chain?
    requires members != [] && members <= inp.registry[chain].kind.members
    requires a in Classify(inp, members[|members| - 1], router, depth + 1, seen).accounts
    ensures var def := inp.registry[chain]; var b := a.(evidence := a.evidence + [ThroughChain(chain, def.stack, def.service)]);
      Tells(inp, router, b) && CameFrom(inp, chain, b)
    decreases MAX_CHAIN_DEPTH + 1 - depth, 0, 0
  {
    var n := |members| - 1;
    WalkTells(inp, members[n], router, depth + 1, seen, a);
    assert inp.registry[chain].kind.members[n] == members[n];
    assert !Stops(members[n], depth + 1, seen);
    assert Link(inp.registry, chain, BareName(members[n]));
    TellsThrough(inp, router, a, ThroughChain(chain, inp.registry[chain].stack, inp.registry[chain].service));
    CameThrough(inp, chain, BareName(members[n]), a);
  }

  /** Every account one reference gives: of a defined forward-auth, observed, at its trimmed address, Authentik's exactly
      when a hint matches that address; of a defined password prompt, observed, with no address; of an undefined name,
      inferred, Authentik's exactly when the name says so; in each case under the reference and the router it was read
      on, and followed by the very chains it came through. */
  lemma AccountsTell(inp: Input, ref: string, router: string, a: Account)
    requires a in Classify(inp, ref, router, 0, {}).accounts
    ensures Tells(inp, router, a) && CameFrom(inp, BareName(ref), a)
  {
    WalkTells(inp, ref, router, 0, {}, a);
  }
}
