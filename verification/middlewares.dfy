/** The middleware registry (labview/internal/labels/registry.go) and the walk that reads one middleware reference
    through it, chains included (labview/internal/labels/posture.go). */
module Middlewares {
  import opened Options
  import opened Lists
  import opened Text
  import opened Vocabulary

  const MAX_CHAIN_DEPTH: nat := 8

  /** What a definition's type and fields say. Chain members are the references of its `middlewares` list. */
  datatype Kind = Forward(address: string) | Basic | Digest | Chain(members: seq<string>) | Plain

  datatype Definition = Definition(name: string, kind: Kind, stack: string, service: string) {
    predicate IsAuth() { kind.Forward? || kind.Basic? || kind.Digest? }
  }

  type Registry = map<string, Definition>

  // ---------------------------------------------------------------------------
  // The registry
  // ---------------------------------------------------------------------------

  /** The first definition of a name in scan order, and the first that is a gate. */
  function First(defs: seq<Definition>, name: string, auth: bool): Option<Definition> {
    if defs == [] then None
    else if defs[0].name == name && (auth ==> defs[0].IsAuth()) then Some(defs[0])
    else First(defs[1..], name, auth)
  }

  /** A gate wins over a non-gate, and between two of a kind the first in scan order stands. */
  function Chosen(defs: seq<Definition>, name: string): Option<Definition> {
    var gate := First(defs, name, true);
    if gate.Some? then gate else First(defs, name, false)
  }

  /** `Registry.add`. */
  function Added(r: Registry, d: Definition): Registry {
    if d.name !in r || (d.IsAuth() && !r[d.name].IsAuth()) then r[d.name := d] else r
  }

  method BuildRegistry(defs: seq<Definition>) returns (r: Registry)
    ensures forall name :: (name in r <==> Chosen(defs, name).Some?) && (name in r ==> Some(r[name]) == Chosen(defs, name))
  {
    r := map[];
    var i := 0;
    while i < |defs|
      invariant 0 <= i <= |defs|
      invariant forall name :: (name in r <==> Chosen(defs[..i], name).Some?) && (name in r ==> Some(r[name]) == Chosen(defs[..i], name))
    {
      forall name ensures Chosen(defs[..i + 1], name)
        == (if name in Added(r, defs[i]) then Some(Added(r, defs[i])[name]) else None)
      {
        OneMoreDefinition(defs[..i], defs[i], name);
        assert defs[..i + 1] == defs[..i] + [defs[i]];
      }
      r := Added(r, defs[i]);
      i := i + 1;
    }
    assert defs[..i] == defs;
  }

  lemma {:induction false} FirstOfMore(defs: seq<Definition>, d: Definition, name: string, auth: bool)
    ensures First(defs + [d], name, auth) ==
      if First(defs, name, auth).Some? then First(defs, name, auth)
      else if d.name == name && (auth ==> d.IsAuth()) then Some(d) else None
    ensures First(defs, name, auth).Some? ==>
      First(defs, name, auth).value.name == name && (auth ==> First(defs, name, auth).value.IsAuth())
  {
    if defs != [] {
      FirstOfMore(defs[1..], d, name, auth);
      assert (defs + [d])[1..] == defs[1..] + [d];
    }
  }

  lemma {:induction false} NoGateMeansNoGate(defs: seq<Definition>, name: string)
    ensures First(defs, name, true).None? && First(defs, name, false).Some? ==> !First(defs, name, false).value.IsAuth()
    ensures First(defs, name, true).Some? ==> First(defs, name, false).Some?
  {
    if defs != [] {
      NoGateMeansNoGate(defs[1..], name);
    }
  }

  lemma OneMoreDefinition(defs: seq<Definition>, d: Definition, name: string)
    ensures Chosen(defs + [d], name) ==
      if d.name != name then Chosen(defs, name)
      else if Chosen(defs, name).None? || (d.IsAuth() && !Chosen(defs, name).value.IsAuth()) then Some(d)
      else Chosen(defs, name)
  {
    FirstOfMore(defs, d, name, true);
    FirstOfMore(defs, d, name, false);
    NoGateMeansNoGate(defs, name);
  }

  // ---------------------------------------------------------------------------
  // References
  // ---------------------------------------------------------------------------

  function BeforeAt(s: string): string {
    if s == "" || s[0] == '@' then "" else [s[0]] + BeforeAt(s[1..])
  }

  /** A reference without its provider suffix. */
  function BareName(ref: string): string {
    BeforeAt(Trim(ref))
  }

  /** What the tokens of a name and the provider hints say; their matching is not part of this model. */
  datatype Reading = Reading(hint: string -> Option<string>, gateName: string -> bool, authentikName: string -> bool)

  datatype Input = Input(registry: Registry, reading: Reading)

  // ---------------------------------------------------------------------------
  // The walk
  // ---------------------------------------------------------------------------

  datatype Found = Found(accounts: seq<Account>, notes: seq<Line>, seen: set<string>)

  function FromName(inp: Input, ref: string, router: string): (seq<Account>, seq<Line>) {
    var bare := BareName(ref);
    if !inp.reading.gateName(bare) then ([], [])
    else
      var base := [Applies(router, ref), NameIsEvidence(bare)];
      var acct :=
        if inp.reading.authentikName(bare) then
          Account(AuthentikForwardAuth, Trim(ref), Inferred, base + [NamesProvider("authentik")], "", false)
        else if inp.reading.hint(bare).Some? then
          Account(AuthentikForwardAuth, Trim(ref), Inferred, base + [NamesProvider(inp.reading.hint(bare).value)], "", false)
        else
          Account(ForwardAuth, Trim(ref), Inferred, base + [ProviderUnknown], "", false);
      ([acct], [Undefined(ref, router)])
  }

  /** The account of a gate the registry defines. */
  function FromDefinition(inp: Input, def: Definition, ref: string, router: string): Account
    requires def.IsAuth()
  {
    var base := [Applies(router, ref), DefinedIn(BareName(ref), def.stack, def.service)];
    if !def.kind.Forward? then Account(BasicAuth, Trim(ref), Observed, base, "", false)
    else
      var address := Trim(def.kind.address);
      var hint := inp.reading.hint(address);
      if hint.Some? then Account(AuthentikForwardAuth, Trim(ref), Observed, base + [NamesProvider(hint.value)], address, false)
      else Account(ForwardAuth, Trim(ref), Observed, base + [ProviderUnknown], address, false)
  }

  function Through(accounts: seq<Account>, line: Line): (r: seq<Account>)
    ensures |r| == |accounts| && forall i :: 0 <= i < |r| ==> r[i] == accounts[i].(evidence := accounts[i].evidence + [line])
  {
    seq(|accounts|, i requires 0 <= i < |accounts| => accounts[i].(evidence := accounts[i].evidence + [line]))
  }

  predicate Stops(ref: string, depth: nat, seen: set<string>) {
    BareName(ref) == "" || depth > MAX_CHAIN_DEPTH || BareName(ref) in seen
  }

  /** One middleware reference: the definition first, the name only when no stack defines it. `seen` is shared by the
      whole walk, so the names it has marked come back with the result. */
  function Classify(inp: Input, ref: string, router: string, depth: nat, seen: set<string>): Found
    decreases MAX_CHAIN_DEPTH + 1 - depth, 1, 0
  {
    var bare := BareName(ref);
    if Stops(ref, depth, seen) then Found([], [], seen)
    else if bare !in inp.registry then
      var (accounts, notes) := FromName(inp, ref, router);
      Found(accounts, notes, seen + {bare})
    else
      var def := inp.registry[bare];
      if def.IsAuth() then Found([FromDefinition(inp, def, ref, router)], [], seen + {bare})
      else if def.kind.Chain? then ClassifyAll(inp, def.kind.members, ThroughChain(bare, def.stack, def.service), router, depth, seen + {bare})
      else Found([], [], seen + {bare})
  }

  /** The members of a chain met at `depth`, in order, each account marked with the chain it came through. */
  function ClassifyAll(inp: Input, members: seq<string>, line: Line, router: string, depth: nat, seen: set<string>): Found
    requires depth <= MAX_CHAIN_DEPTH
    decreases MAX_CHAIN_DEPTH + 1 - depth, 0, |members|
  {
    if members == [] then Found([], [], seen)
    else
      var rest := ClassifyAll(inp, members[..|members| - 1], line, router, depth, seen);
      var last := Classify(inp, members[|members| - 1], router, depth + 1, rest.seen);
      Found(rest.accounts + Through(last.accounts, line), rest.notes + last.notes, last.seen)
  }

  /** The `seen` map of one walk. */
  class Seen {
    var names: set<string>

    constructor ()
      ensures names == {}
    {
      names := {};
    }
  }

  /** The walk as the source runs it, marking one shared map. */
  method ClassifyInto(inp: Input, ref: string, router: string, depth: nat, seen: Seen)
    returns (accounts: seq<Account>, notes: seq<Line>)
    modifies seen
    ensures Found(accounts, notes, seen.names) == Classify(inp, ref, router, depth, old(seen.names))
    decreases MAX_CHAIN_DEPTH + 1 - depth
  {
    var bare := BareName(ref);
    if bare == "" || depth > MAX_CHAIN_DEPTH || bare in seen.names {
      return [], [];
    }
    seen.names := seen.names + {bare};
    if bare !in inp.registry {
      var named := FromName(inp, ref, router);
      return named.0, named.1;
    }
    var def := inp.registry[bare];
    if def.IsAuth() {
      return [FromDefinition(inp, def, ref, router)], [];
    }
    accounts, notes := [], [];
    if def.kind.Chain? {
      var line := ThroughChain(bare, def.stack, def.service);
      var marked := seen.names;
      var members := def.kind.members;
      var i := 0;
      while i < |members|
        invariant 0 <= i <= |members|
        invariant Found(accounts, notes, seen.names) == ClassifyAll(inp, members[..i], line, router, depth, marked)
      {
        assert members[..i + 1][..i] == members[..i];
        var got, gotNotes := ClassifyInto(inp, members[i], router, depth + 1, seen);
        accounts, notes := accounts + Through(got, line), notes + gotNotes;
        i := i + 1;
      }
      assert members[..i] == members;
    }
  }
}
