/** Dependency resolution across the fleet (labview/internal/fleet/depends.go): compose's `depends_on` and the
    sidecars' declared references, resolved and merged in one walk. */
module Depends {
  import opened Options
  import opened Lists
  import opened Grouping
  import opened Fleet
  import opened FleetIndex
  import N = Networks

  datatype Dependency = Dependency(
    source: string, target: string, via: seq<string>, observed: bool, declared: bool, file: string, detail: string)
  {
    function Pair(): (string, string) { (source, target) }
    predicate DeclaredOnly() { declared && !observed }
  }

  /** Why a declared reference names no one service. */
  datatype Reason = ItsOwnService | NoSuchService | SeveralServices

  datatype Refusal = Refusal(source: string, ref: string, file: string, reason: Reason, considered: seq<string>)

  datatype Resolution = Target(key: string) | Refuse(reason: Reason, considered: seq<string>)

  // ---------------------------------------------------------------------------
  // One reference
  // ---------------------------------------------------------------------------

  /** The halves of a qualified reference; a reference with no slash, or with an empty half, is bare. */
  function CutRef(ref: string): Option<(string, string)> {
    var i := Slash(ref);
    if i == |ref| || i == 0 || i + 1 == |ref| then None else Some((ref[..i], ref[i + 1..]))
  }

  predicate Has(ix: Index, key: string) { key in Keys(ix.placed) }

  /** The keys, other than `source`, whose service half is `name`, in scan order. */
  function Named(keys: seq<string>, name: string, source: string): seq<string> {
    if keys == [] then [] else
      var k := keys[|keys| - 1];
      Named(keys[..|keys| - 1], name, source) + (if SplitKey(k).1 == name && k != source then [k] else [])
  }

  function Resolve(ix: Index, source: string, stackId: string, ref: string): Resolution {
    match CutRef(ref)
    case Some((stack, name)) =>
      var key := ServiceKey(stack, name);
      if key == source then Refuse(ItsOwnService, []) else if !Has(ix, key) then Refuse(NoSuchService, []) else Target(key)
    case None =>
      if (stackId, ref) in ix.inStack then
        var key := ix.inStack[(stackId, ref)];
        if key == source then Refuse(ItsOwnService, []) else Target(key)
      else
        var candidates := Named(Keys(ix.placed), ref, source);
        if |candidates| == 1 then Target(candidates[0])
        else if candidates == [] then Refuse(NoSuchService, [])
        else Refuse(SeveralServices, candidates)
  }

  method ResolveRef(ix: Index, source: string, stackId: string, ref: string) returns (r: Resolution)
    ensures r == Resolve(ix, source, stackId, ref)
  {
    var cut := CutRef(ref);
    if cut.Some? {
      var key := ServiceKey(cut.value.0, cut.value.1);
      return if key == source then Refuse(ItsOwnService, []) else if !Has(ix, key) then Refuse(NoSuchService, []) else Target(key);
    }
    if (stackId, ref) in ix.inStack {
      var key := ix.inStack[(stackId, ref)];
      return if key == source then Refuse(ItsOwnService, []) else Target(key);
    }
    var candidates: seq<string>, keys, i := [], Keys(ix.placed), 0;
    while i < |keys|
      invariant 0 <= i <= |keys| && candidates == Named(keys[..i], ref, source)
    {
      assert keys[..i + 1][..i] == keys[..i];
      if SplitKey(keys[i]).1 == ref && keys[i] != source {
        candidates := candidates + [keys[i]];
      }
      i := i + 1;
    }
    assert keys[..i] == keys;
    if |candidates| == 1 {
      return Target(candidates[0]);
    }
    r := if candidates == [] then Refuse(NoSuchService, []) else Refuse(SeveralServices, candidates);
  }

  // ---------------------------------------------------------------------------
  // What the walk does, one thing at a time
  // ---------------------------------------------------------------------------

  /** One pair claimed, one reference refused, or one note written. */
  datatype Outcome = Claims(dep: Dependency) | Refuses(refusal: Refusal) | Notes(key: string, note: Note)

  /** Compose's `depends_on` names a service of the same stack; a service naming itself says nothing. */
  function ComposeOutcome(ix: Index, p: Placed, name: string): seq<Outcome> {
    if (p.stackId, name) !in ix.inStack then [Notes(p.Key(), NotInStack(name))]
    else if ix.inStack[(p.stackId, name)] == p.Key() then []
    else [Claims(Dependency(p.Key(), ix.inStack[(p.stackId, name)], [], true, false, "", ""))]
  }

  /** A declared reference yields exactly one outcome. */
  function RefOutcome(ix: Index, p: Placed, file: string, ref: DeclaredDependency): Outcome {
    match Resolve(ix, p.Key(), p.stackId, ref.ref)
    case Target(key) => Claims(Dependency(p.Key(), key, [], false, true, file, ref.detail))
    case Refuse(reason, considered) => Refuses(Refusal(p.Key(), ref.ref, file, reason, considered))
  }

  function ComposeOutcomes(ix: Index, p: Placed, names: seq<string>): seq<Outcome> {
    if names == [] then []
    else ComposeOutcomes(ix, p, names[..|names| - 1]) + ComposeOutcome(ix, p, names[|names| - 1])
  }

  function RefOutcomes(ix: Index, p: Placed, file: string, refs: seq<DeclaredDependency>): seq<Outcome> {
    if refs == [] then [] else RefOutcomes(ix, p, file, refs[..|refs| - 1]) + [RefOutcome(ix, p, file, refs[|refs| - 1])]
  }

  function Refs(p: Placed): seq<DeclaredDependency> { if p.svc.declared.Some? then p.svc.declared.value.dependsOn else [] }

  function FileOf(p: Placed): string { if p.svc.declared.Some? then p.svc.declared.value.file else "" }

  /** Compose first, then the declaration. */
  function ServiceOutcomes(ix: Index, p: Placed): seq<Outcome> {
    ComposeOutcomes(ix, p, p.svc.dependsOn) + RefOutcomes(ix, p, FileOf(p), Refs(p))
  }

  function Outcomes(ix: Index, placed: seq<Placed>): seq<Outcome> {
    if placed == [] then [] else Outcomes(ix, placed[..|placed| - 1]) + ServiceOutcomes(ix, placed[|placed| - 1])
  }

  // ---------------------------------------------------------------------------
  // The merge
  // ---------------------------------------------------------------------------

  /** Where the pair stands, or the length. */
  function Find(resolved: seq<Dependency>, pair: (string, string)): (i: nat)
    ensures i <= |resolved| && (i < |resolved| ==> resolved[i].Pair() == pair)
    ensures forall j :: 0 <= j < i ==> resolved[j].Pair() != pair
  {
    if resolved == [] || resolved[0].Pair() == pair then 0 else 1 + Find(resolved[1..], pair)
  }

  /** A second account of one pair: both provenances are kept, and the first detail stands. */
  function Merge(old': Dependency, d: Dependency): Dependency {
    var both := old'.(observed := old'.observed || d.observed, declared := old'.declared || d.declared);
    if old'.detail == "" then both.(detail := d.detail, file := d.file) else both
  }

  function Added(nets: N.Index, resolved: seq<Dependency>, d: Dependency): seq<Dependency> {
    var i := Find(resolved, d.Pair());
    if i < |resolved| then resolved[i := Merge(resolved[i], d)]
    else resolved + [d.(via := N.Shared(nets, d.source, d.target))]
  }

  datatype Walk = Walk(resolved: seq<Dependency>, refused: seq<Refusal>, notes: map<string, seq<Note>>)

  function Step(nets: N.Index, w: Walk, o: Outcome): Walk {
    match o
    case Claims(d) => w.(resolved := Added(nets, w.resolved, d))
    case Refuses(r) => w.(refused := w.refused + [r])
    case Notes(key, note) => w.(notes := Push(w.notes, key, note))
  }

  function After(nets: N.Index, os: seq<Outcome>): Walk {
    if os == [] then Walk([], [], map[]) else Step(nets, After(nets, os[..|os| - 1]), os[|os| - 1])
  }

  lemma AfterOne(nets: N.Index, os: seq<Outcome>, o: Outcome)
    ensures After(nets, os + [o]) == Step(nets, After(nets, os), o)
  {
    assert (os + [o])[..|os|] == os;
  }

  /** `at` finds every resolved pair, and nothing else. */
  ghost predicate Indexed(at: map<(string, string), nat>, resolved: seq<Dependency>) {
    && (forall i :: 0 <= i < |resolved| ==> resolved[i].Pair() in at && at[resolved[i].Pair()] == i)
    && forall pair :: pair in at ==> at[pair] < |resolved| && resolved[at[pair]].Pair() == pair
  }

  method Add(nets: N.Index, resolved: seq<Dependency>, at: map<(string, string), nat>, d: Dependency)
    returns (resolved': seq<Dependency>, at': map<(string, string), nat>)
    requires Indexed(at, resolved)
    ensures Indexed(at', resolved') && resolved' == Added(nets, resolved, d)
  {
    if d.Pair() in at {
      var i := at[d.Pair()];
      resolved', at' := resolved[i := Merge(resolved[i], d)], at;
    } else {
      var via := N.SharedNetworks(nets, d.source, d.target);
      resolved', at' := resolved + [d.(via := via)], at[d.Pair() := |resolved|];
    }
  }

  // ---------------------------------------------------------------------------
  // The walk
  // ---------------------------------------------------------------------------

  /** What resolved, what was refused, and the notes written on each service, in the order they were written. */
  method Dependencies(ix: Index, nets: N.Index, placed: seq<Placed>) returns (w: Walk)
    ensures var walked := After(nets, Outcomes(ix, placed));
      w == walked.(notes := Unreachable(walked.notes, walked.resolved))
  {
    w := Walk([], [], map[]);
    var at: map<(string, string), nat> := map[];
    var i := 0;
    while i < |placed|
      invariant 0 <= i <= |placed| && Indexed(at, w.resolved) && w == After(nets, Outcomes(ix, placed[..i]))
    {
      assert placed[..i + 1][..i] == placed[..i];
      w, at := ServiceWalk(ix, nets, placed[i], Outcomes(ix, placed[..i]), w, at);
      i := i + 1;
    }
    assert placed[..i] == placed;
    var notes := NoteUnreachable(w.notes, w.resolved);
    w := w.(notes := notes);
  }

  /** One service: compose's names, then the declaration's references. */
  method ServiceWalk(ix: Index, nets: N.Index, p: Placed, ghost os: seq<Outcome>, w0: Walk, at0: map<(string, string), nat>)
    returns (w: Walk, at: map<(string, string), nat>)
    requires Indexed(at0, w0.resolved) && w0 == After(nets, os)
    ensures Indexed(at, w.resolved) && w == After(nets, os + ServiceOutcomes(ix, p))
  {
    ghost var composed := os + ComposeOutcomes(ix, p, p.svc.dependsOn);
    w, at := ComposeWalk(ix, nets, p, os, w0, at0);
    JoinLeft(os, ComposeOutcomes(ix, p, p.svc.dependsOn), RefOutcomes(ix, p, FileOf(p), Refs(p)));
    if p.svc.declared.Some? {
      w, at := DeclaredWalk(ix, nets, p, composed, w, at);
    } else {
      JoinNothing(composed);
    }
  }

  method ComposeWalk(ix: Index, nets: N.Index, p: Placed, ghost os: seq<Outcome>, w0: Walk, at0: map<(string, string), nat>)
    returns (w: Walk, at: map<(string, string), nat>)
    requires Indexed(at0, w0.resolved) && w0 == After(nets, os)
    ensures Indexed(at, w.resolved) && w == After(nets, os + ComposeOutcomes(ix, p, p.svc.dependsOn))
  {
    w, at := w0, at0;
    var names, j := p.svc.dependsOn, 0;
    assert os + [] == os;
    while j < |names|
      invariant 0 <= j <= |names| && Indexed(at, w.resolved) && w == After(nets, os + ComposeOutcomes(ix, p, names[..j]))
    {
      ghost var before := os + ComposeOutcomes(ix, p, names[..j]);
      ComposeStep(ix, p, os, names, j);
      if (p.stackId, names[j]) !in ix.inStack {
        AfterOne(nets, before, Notes(p.Key(), NotInStack(names[j])));
        w := w.(notes := Push(w.notes, p.Key(), NotInStack(names[j])));
      } else if ix.inStack[(p.stackId, names[j])] != p.Key() {
        var d := Dependency(p.Key(), ix.inStack[(p.stackId, names[j])], [], true, false, "", "");
        AfterOne(nets, before, Claims(d));
        var resolved;
        resolved, at := Add(nets, w.resolved, at, d);
        w := w.(resolved := resolved);
      }
      j := j + 1;
    }
    assert names[..j] == names;
  }

  lemma ComposeStep(ix: Index, p: Placed, os: seq<Outcome>, names: seq<string>, j: nat)
    requires j < |names|
    ensures os + ComposeOutcomes(ix, p, names[..j + 1]) == os + ComposeOutcomes(ix, p, names[..j]) + ComposeOutcome(ix, p, names[j])
    ensures os + ComposeOutcomes(ix, p, names[..j]) + [] == os + ComposeOutcomes(ix, p, names[..j])
  {
    assert names[..j + 1][..j] == names[..j];
  }

  method DeclaredWalk(ix: Index, nets: N.Index, p: Placed, ghost os: seq<Outcome>, w0: Walk, at0: map<(string, string), nat>)
    returns (w: Walk, at: map<(string, string), nat>)
    requires p.svc.declared.Some? && Indexed(at0, w0.resolved) && w0 == After(nets, os)
    ensures Indexed(at, w.resolved) && w == After(nets, os + RefOutcomes(ix, p, FileOf(p), Refs(p)))
  {
    w, at := w0, at0;
    var refs, j := p.svc.declared.value.dependsOn, 0;
    var file := p.svc.declared.value.file;
    assert os + [] == os;
    while j < |refs|
      invariant 0 <= j <= |refs| && Indexed(at, w.resolved) && w == After(nets, os + RefOutcomes(ix, p, file, refs[..j]))
    {
      RefStep(ix, nets, p, file, os, refs, j);
      w, at := DeclaredStep(ix, nets, p, file, refs[j], w, at);
      j := j + 1;
    }
    assert refs[..j] == refs;
  }

  lemma RefStep(ix: Index, nets: N.Index, p: Placed, file: string, os: seq<Outcome>, refs: seq<DeclaredDependency>, j: nat)
    requires j < |refs|
    ensures After(nets, os + RefOutcomes(ix, p, file, refs[..j + 1])) ==
      Step(nets, After(nets, os + RefOutcomes(ix, p, file, refs[..j])), RefOutcome(ix, p, file, refs[j]))
  {
    var before := os + RefOutcomes(ix, p, file, refs[..j]);
    assert refs[..j + 1][..j] == refs[..j];
    JoinLeft(os, RefOutcomes(ix, p, file, refs[..j]), [RefOutcome(ix, p, file, refs[j])]);
    AfterOne(nets, before, RefOutcome(ix, p, file, refs[j]));
  }

  method DeclaredStep(ix: Index, nets: N.Index, p: Placed, file: string, ref: DeclaredDependency, w0: Walk, at0: map<(string, string), nat>)
    returns (w: Walk, at: map<(string, string), nat>)
    requires Indexed(at0, w0.resolved)
    ensures Indexed(at, w.resolved) && w == Step(nets, w0, RefOutcome(ix, p, file, ref))
  {
    w, at := w0, at0;
    var r := ResolveRef(ix, p.Key(), p.stackId, ref.ref);
    match r {
      case Refuse(reason, considered) =>
        w := w.(refused := w.refused + [Refusal(p.Key(), ref.ref, file, reason, considered)]);
      case Target(key) =>
        var resolved;
        resolved, at := Add(nets, w.resolved, at, Dependency(p.Key(), key, [], false, true, file, ref.detail));
        w := w.(resolved := resolved);
    }
  }

  /** A resolved pair that shares no network is noted on the dependent. */
  function Unreachable(notes: map<string, seq<Note>>, deps: seq<Dependency>): map<string, seq<Note>> {
    if deps == [] then notes else
      var d := deps[|deps| - 1];
      var before := Unreachable(notes, deps[..|deps| - 1]);
      if d.via == [] then Push(before, d.source, NoSharedNetwork(d.target)) else before
  }

  method NoteUnreachable(notes: map<string, seq<Note>>, deps: seq<Dependency>) returns (out: map<string, seq<Note>>)
    ensures out == Unreachable(notes, deps)
  {
    out := notes;
    var i := 0;
    while i < |deps|
      invariant 0 <= i <= |deps| && out == Unreachable(notes, deps[..i])
    {
      assert deps[..i + 1][..i] == deps[..i];
      if deps[i].via == [] {
        out := Push(out, deps[i].source, NoSharedNetwork(deps[i].target));
      }
      i := i + 1;
    }
    assert deps[..i] == deps;
  }
}
