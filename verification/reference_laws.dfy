/** How a reference is read and refused, and which names of compose are noted (labview/internal/fleet/depends.go). */
module ReferenceLaws {
  import opened Options
  import opened Lists
  import opened Grouping
  import opened Fleet
  import opened FleetIndex
  import opened Depends
  import opened DependencyLaws
  import N = Networks

  // ---------------------------------------------------------------------------
  // Reading a reference
  // ---------------------------------------------------------------------------

  lemma SlashIs(ref: string, i: nat)
    requires i < |ref| && ref[i] == '/' && '/' !in ref[..i]
    ensures Slash(ref) == i
  {
    assert forall j :: 0 <= j < i ==> ref[j] == ref[..i][j] && ref[..i][j] in ref[..i];
  }

  /** A reference is qualified exactly when something stands on both sides of its first slash. */
  lemma CutMeans(ref: string, stack: string, name: string)
    ensures CutRef(ref) == Some((stack, name)) <==> ref == stack + "/" + name && '/' !in stack && stack != "" && name != ""
  {
    var i := Slash(ref);
    if ref == stack + "/" + name && '/' !in stack {
      assert ref[..|stack|] == stack && ref[|stack| + 1..] == name;
      SlashIs(ref, |stack|);
    }
    if CutRef(ref) == Some((stack, name)) {
      assert ref == ref[..i] + [ref[i]] + ref[i + 1..];
      assert forall j :: 0 <= j < i ==> ref[..i][j] == ref[j];
    }
  }

  // ---------------------------------------------------------------------------
  // Refusing one
  // ---------------------------------------------------------------------------

  /** The reference spells the service that writes it. */
  ghost predicate SpellsItself(p: Placed, ref: string) {
    match CutRef(ref)
    case Some((stack, name)) => stack == p.stackId && name == p.svc.name
    case None => ref == p.svc.name
  }

  /** Some service is spelt. */
  ghost predicate SpellsSome(placed: seq<Placed>, ref: string) {
    match CutRef(ref)
    case Some((stack, name)) => exists q :: q in placed && q.stackId == stack && q.svc.name == name
    case None => exists q :: q in placed && q.svc.name == ref
  }

  /** A bare name of two services, neither of them a sibling. */
  ghost predicate SpellsSeveral(placed: seq<Placed>, p: Placed, ref: string) {
    && CutRef(ref).None? && (forall q :: q in placed && q.stackId == p.stackId ==> q.svc.name != ref)
    && exists q, o :: q in placed && o in placed && q.svc.name == ref && o.svc.name == ref && q.Key() != o.Key()
  }

  ghost predicate RefusedFor(r: Resolution, reason: Reason) { r.Refuse? && r.reason == reason }

  lemma QualifiedRefused(placed: seq<Placed>, p: Placed, ref: string)
    requires WellNamed(placed) && p in placed && CutRef(ref).Some?
    ensures var r := Resolve(IndexOf(placed), p.Key(), p.stackId, ref);
      && (RefusedFor(r, ItsOwnService) <==> SpellsItself(p, ref))
      && (RefusedFor(r, NoSuchService) <==> !SpellsItself(p, ref) && !SpellsSome(placed, ref))
      && !RefusedFor(r, SeveralServices)
  {
    var (stack, name) := CutRef(ref).value;
    assert '/' !in stack;
    SplitOfKey(stack, name);
    SplitOfKey(p.stackId, p.svc.name);
    HasIs(placed, ServiceKey(stack, name));
    forall q | q in placed ensures q.Key() == ServiceKey(stack, name) <==> q.stackId == stack && q.svc.name == name {
      SplitOfKey(q.stackId, q.svc.name);
    }
  }

  lemma SiblingRefused(placed: seq<Placed>, p: Placed, ref: string)
    requires WellNamed(placed) && p in placed && CutRef(ref).None? && (p.stackId, ref) in IndexOf(placed).inStack
    ensures var r := Resolve(IndexOf(placed), p.Key(), p.stackId, ref);
      && (RefusedFor(r, ItsOwnService) <==> SpellsItself(p, ref)) && !RefusedFor(r, NoSuchService) && !RefusedFor(r, SeveralServices)
    ensures SpellsSome(placed, ref) && !SpellsSeveral(placed, p, ref)
  {
    InStackIs(placed, p.stackId, ref);
    SplitOfKey(p.stackId, ref);
    SplitOfKey(p.stackId, p.svc.name);
  }

  lemma BareResolves(ix: Index, source: string, stackId: string, ref: string)
    requires CutRef(ref).None? && (stackId, ref) !in ix.inStack
    ensures var r, c := Resolve(ix, source, stackId, ref), Named(Keys(ix.placed), ref, source);
      && !RefusedFor(r, ItsOwnService) && (RefusedFor(r, NoSuchService) <==> c == []) && (RefusedFor(r, SeveralServices) <==> |c| > 1)
  {
  }

  lemma NoSibling(placed: seq<Placed>, p: Placed, ref: string)
    requires p in placed && CutRef(ref).None? && (p.stackId, ref) !in IndexOf(placed).inStack
    ensures !SpellsItself(p, ref) && forall q :: q in placed && q.stackId == p.stackId ==> q.svc.name != ref
  {
    InStackIs(placed, p.stackId, ref);
  }

  lemma BareRefused(placed: seq<Placed>, p: Placed, ref: string)
    requires WellNamed(placed) && p in placed && CutRef(ref).None? && (p.stackId, ref) !in IndexOf(placed).inStack
    ensures var r := Resolve(IndexOf(placed), p.Key(), p.stackId, ref);
      && (RefusedFor(r, NoSuchService) <==> !SpellsSome(placed, ref)) && (RefusedFor(r, SeveralServices) <==> SpellsSeveral(placed, p, ref))
      && !RefusedFor(r, ItsOwnService)
  {
    NoSibling(placed, p, ref);
    BareResolves(IndexOf(placed), p.Key(), p.stackId, ref);
    EveryCandidate(placed, p, ref);
    Several(placed, ref, Named(Keys(placed), ref, p.Key()));
  }

  lemma Several(placed: seq<Placed>, name: string, c: seq<string>)
    requires Distinct(c) && forall k :: k in c <==> exists q :: q in placed && q.Key() == k && q.svc.name == name
    ensures c == [] <==> forall q :: q in placed ==> q.svc.name != name
    ensures |c| > 1 <==> exists q, o :: q in placed && o in placed && q.svc.name == name && o.svc.name == name && q.Key() != o.Key()
  {
    if q :| q in placed && q.svc.name == name {
      assert q.Key() in c;
    }
    if c != [] {
      assert c[0] in c;
    }
    if |c| > 1 {
      assert c[1] in c;
      var q :| q in placed && q.Key() == c[0] && q.svc.name == name;
      var o :| o in placed && o.Key() == c[1] && o.svc.name == name;
      assert q.Key() != o.Key();
    }
    if q, o :| q in placed && o in placed && q.svc.name == name && o.svc.name == name && q.Key() != o.Key() {
      assert q.Key() in c && o.Key() in c;
    }
  }

  /** Why a reference is refused: it spells the service that wrote it; or it spells none; or it is a bare name of several
      services, none of them a sibling. */
  lemma RefusalMeans(placed: seq<Placed>, p: Placed, ref: string)
    requires WellNamed(placed) && p in placed
    ensures var r := Resolve(IndexOf(placed), p.Key(), p.stackId, ref);
      && (RefusedFor(r, ItsOwnService) <==> SpellsItself(p, ref))
      && (RefusedFor(r, NoSuchService) <==> !SpellsItself(p, ref) && !SpellsSome(placed, ref))
      && (RefusedFor(r, SeveralServices) <==> SpellsSeveral(placed, p, ref))
  {
    if CutRef(ref).Some? {
      QualifiedRefused(placed, p, ref);
    } else if (p.stackId, ref) in IndexOf(placed).inStack {
      SiblingRefused(placed, p, ref);
    } else {
      NoSibling(placed, p, ref);
      BareRefused(placed, p, ref);
    }
  }

  // ---------------------------------------------------------------------------
  // Notes on compose's names
  // ---------------------------------------------------------------------------

  lemma {:induction false} NotesWritten(nets: N.Index, os: seq<Outcome>, key: string, note: Note)
    ensures note in Get(After(nets, os).notes, key) <==> Notes(key, note) in os
  {
    if os != [] {
      SplitLast(os);
      NotesWritten(nets, os[..|os| - 1], key, note);
      if os[|os| - 1].Notes? {
        PushHas(After(nets, os[..|os| - 1]).notes, os[|os| - 1].key, os[|os| - 1].note, key, note);
      }
    }
  }

  lemma {:induction false} UnreachableAdds(notes: map<string, seq<Note>>, deps: seq<Dependency>, key: string, name: string)
    ensures NotInStack(name) in Get(Unreachable(notes, deps), key) <==> NotInStack(name) in Get(notes, key)
  {
    if deps != [] {
      var d, before := deps[|deps| - 1], deps[..|deps| - 1];
      UnreachableAdds(notes, before, key, name);
      PushHas(Unreachable(notes, before), d.source, NoSharedNetwork(d.target), key, NotInStack(name));
    }
  }

  lemma OneServiceNotes(placed: seq<Placed>, p: Placed, key: string, name: string)
    ensures Notes(key, NotInStack(name)) in ServiceOutcomes(IndexOf(placed), p) <==>
      p.Key() == key && name in p.svc.dependsOn && !HasSibling(placed, p.stackId, name)
  {
    var ix, o := IndexOf(placed), Notes(key, NotInStack(name));
    ComposeHas(ix, p, p.svc.dependsOn, o);
    RefHas(ix, p, Refs(p), o);
    InStackIs(placed, p.stackId, name);
    forall n ensures o in ComposeOutcome(ix, p, n) <==> n == name && p.Key() == key && !HasSibling(placed, p.stackId, name) {
      InStackIs(placed, p.stackId, n);
    }
  }

  /** A service is told of the names compose gives it that its stack does not have, and of no other. */
  lemma NotInStackIs(placed: seq<Placed>, nets: N.Index, key: string, name: string)
    ensures var w := After(nets, Outcomes(IndexOf(placed), placed));
      NotInStack(name) in Get(Unreachable(w.notes, w.resolved), key) <==>
        exists p :: p in placed && p.Key() == key && name in p.svc.dependsOn && !HasSibling(placed, p.stackId, name)
  {
    var ix := IndexOf(placed);
    var os := Outcomes(ix, placed);
    var w := After(nets, os);
    UnreachableAdds(w.notes, w.resolved, key, name);
    NotesWritten(nets, os, key, NotInStack(name));
    OutcomeIsSomeones(ix, placed, Notes(key, NotInStack(name)));
    forall p | p in placed
      ensures Notes(key, NotInStack(name)) in ServiceOutcomes(ix, p) <==>
        p.Key() == key && name in p.svc.dependsOn && !HasSibling(placed, p.stackId, name)
    {
      OneServiceNotes(placed, p, key, name);
    }
  }
}
