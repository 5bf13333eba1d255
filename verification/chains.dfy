/** What the chain walk finds, against reachability in the registry: it is sound, visits each name once, and is
    complete exactly when every gate beyond a name the depth cap turned away was met some other way. */
module Chains {
  import opened Options
  import opened Lists
  import opened Text
  import opened Vocabulary
  import opened Middlewares

  /** One chain link: `b` is a named member of the chain `a`. */
  ghost predicate Link(reg: Registry, a: string, b: string) {
    && b != "" && a in reg && reg[a].kind.Chain?
    && exists i :: 0 <= i < |reg[a].kind.members| && BareName(reg[a].kind.members[i]) == b
  }

  /** `to` is at most `n` chain links from `from`. */
  ghost predicate Within(reg: Registry, from: string, to: string, n: nat)
    decreases n
  {
    from == to || (n > 0 && exists m :: Link(reg, from, m) && Within(reg, m, to, n - 1))
  }

  ghost predicate Reaches(reg: Registry, from: string, to: string) {
    exists n: nat :: Within(reg, from, to, n)
  }

  /** A name the walk must report when it meets it: a defined gate, or an undefined name that reads as one. */
  predicate IsGate(inp: Input, b: string) {
    if b in inp.registry then inp.registry[b].IsAuth() else inp.reading.gateName(b)
  }

  /** The name an account was reported for. */
  function GateOf(a: Account): string { BareName(a.detail) }

  function Gates(accounts: seq<Account>): (g: seq<string>)
    ensures |g| == |accounts| && forall i :: 0 <= i < |g| ==> g[i] == GateOf(accounts[i])
  {
    seq(|accounts|, i requires 0 <= i < |accounts| => GateOf(accounts[i]))
  }

  lemma {:induction false} TrimTwice(s: string)
    ensures Trim(Trim(s)) == Trim(s)
    decreases |s|
  {
    if s != "" {
      if IsSpace(s[0]) {
        TrimTwice(s[1..]);
      } else if IsSpace(s[|s| - 1]) {
        TrimTwice(s[..|s| - 1]);
      }
    }
  }

  lemma GateOfReported(ref: string)
    ensures BareName(Trim(ref)) == BareName(ref)
  {
    TrimTwice(ref);
  }

  // ---------------------------------------------------------------------------
  // Each name once, and every visited gate reported
  // ---------------------------------------------------------------------------

  /** What one walk from `seen` adds: names marked and gates reported are new, each gate once, and every gate among
      the names newly marked is reported. */
  ghost predicate Accounted(inp: Input, seen: set<string>, f: Found) {
    && seen <= f.seen && Distinct(Gates(f.accounts))
    && forall g :: g in Gates(f.accounts) <==> g in f.seen && g !in seen && IsGate(inp, g)
  }

  lemma GatesAppend(a: seq<Account>, b: seq<Account>)
    ensures Gates(a + b) == Gates(a) + Gates(b)
  {
  }

  lemma DistinctAppend<T(!new)>(a: seq<T>, b: seq<T>)
    requires Distinct(a) && Distinct(b) && forall x :: x in a ==> x !in b
    ensures Distinct(a + b)
  {
    forall i, j | 0 <= i < j < |a + b| ensures (a + b)[i] != (a + b)[j] {
      if i < |a| <= j {
        assert a[i] in a && b[j - |a|] in b;
      }
    }
  }

  lemma {:induction false} WalkAccounts(inp: Input, ref: string, router: string, depth: nat, seen: set<string>)
    ensures Accounted(inp, seen, Classify(inp, ref, router, depth, seen))
    ensures !Stops(ref, depth, seen) ==> BareName(ref) in Classify(inp, ref, router, depth, seen).seen
    decreases MAX_CHAIN_DEPTH + 1 - depth, 1, 0
  {
    var bare := BareName(ref);
    GateOfReported(ref);
    if !Stops(ref, depth, seen) {
      var f := Classify(inp, ref, router, depth, seen);
      if bare in inp.registry && inp.registry[bare].kind.Chain? {
        var def := inp.registry[bare];
        WalkAllAccounts(inp, def.kind.members, ThroughChain(bare, def.stack, def.service), router, depth, seen + {bare});
      } else {
        assert Gates(f.accounts) == if IsGate(inp, bare) then [bare] else [];
        assert f.seen == seen + {bare};
      }
    }
  }

  lemma {:induction false} WalkAllAccounts(inp: Input, members: seq<string>, line: Line, router: string, depth: nat, seen: set<string>)
    requires depth <= MAX_CHAIN_DEPTH
    ensures Accounted(inp, seen, ClassifyAll(inp, members, line, router, depth, seen))
    decreases MAX_CHAIN_DEPTH + 1 - depth, 0, |members|
  {
    if members != [] {
      var n := |members| - 1;
      WalkAllAccounts(inp, members[..n], line, router, depth, seen);
      var rest := ClassifyAll(inp, members[..n], line, router, depth, seen);
      WalkAccounts(inp, members[n], router, depth + 1, rest.seen);
      var last := Classify(inp, members[n], router, depth + 1, rest.seen);
      assert Gates(Through(last.accounts, line)) == Gates(last.accounts);
      GatesAppend(rest.accounts, Through(last.accounts, line));
      DistinctAppend(Gates(rest.accounts), Gates(last.accounts));
    }
  }

  // ---------------------------------------------------------------------------
  // Soundness
  // ---------------------------------------------------------------------------

  lemma {:induction false} WalkIsSound(inp: Input, ref: string, router: string, depth: nat, seen: set<string>, g: string)
    requires g in Classify(inp, ref, router, depth, seen).seen && g !in seen
    ensures depth <= MAX_CHAIN_DEPTH && Within(inp.registry, BareName(ref), g, MAX_CHAIN_DEPTH - depth)
    decreases MAX_CHAIN_DEPTH + 1 - depth, 1, 0
  {
    var bare := BareName(ref);
    if g != bare {
      var def := inp.registry[bare];
      var m := WalkAllIsSound(inp, bare, def.kind.members, ThroughChain(bare, def.stack, def.service), router, depth, seen + {bare}, g);
    }
  }

  lemma {:induction false} WalkAllIsSound(inp: Input, chain: string, members: seq<string>, line: Line, router: string, depth: nat,
                                          seen: set<string>, g: string) returns (m: string)
    requires depth <= MAX_CHAIN_DEPTH && chain in inp.registry && inp.registry[chain].kind.Chain?
    requires members <= inp.registry[chain].kind.members
    requires g in ClassifyAll(inp, members, line, router, depth, seen).seen && g !in seen
    ensures depth < MAX_CHAIN_DEPTH && Link(inp.registry, chain, m) && Within(inp.registry, m, g, MAX_CHAIN_DEPTH - depth - 1)
    decreases MAX_CHAIN_DEPTH + 1 - depth, 0, |members|
  {
    var n := |members| - 1;
    var rest := ClassifyAll(inp, members[..n], line, router, depth, seen);
    if g in rest.seen {
      m := WalkAllIsSound(inp, chain, members[..n], line, router, depth, seen, g);
    } else {
      m := BareName(members[n]);
      WalkIsSound(inp, members[n], router, depth + 1, rest.seen, g);
      assert inp.registry[chain].kind.members[n] == members[n];
      assert !Stops(members[n], depth + 1, rest.seen);
    }
  }

  // ---------------------------------------------------------------------------
  // Completeness
  // ---------------------------------------------------------------------------

  /** A chain path that repeats no name, from its first name on. */
  ghost predicate SimplePath(reg: Registry, p: seq<string>) {
    p != [] && Distinct(p) && forall i :: 0 <= i < |p| - 1 ==> Link(reg, p[i], p[i + 1])
  }

  /** No repetition-free chain path from `root` has more links than the depth cap. */
  ghost predicate Shallow(reg: Registry, root: string) {
    forall p :: SimplePath(reg, p) && p[0] == root ==> |p| - 1 <= MAX_CHAIN_DEPTH
  }

  /** The names the depth cap turns away while the walk has not marked them. */
  function TurnedAway(inp: Input, ref: string, router: string, depth: nat, seen: set<string>): set<string>
    requires depth <= MAX_CHAIN_DEPTH + 1
    decreases MAX_CHAIN_DEPTH + 2 - depth, 1, 0
  {
    var bare := BareName(ref);
    if bare == "" || bare in seen then {}
    else if depth > MAX_CHAIN_DEPTH then {bare}
    else if bare in inp.registry && inp.registry[bare].kind.Chain? then
      var def := inp.registry[bare];
      TurnedAwayAll(inp, def.kind.members, ThroughChain(bare, def.stack, def.service), router, depth, seen + {bare})
    else {}
  }

  function TurnedAwayAll(inp: Input, members: seq<string>, line: Line, router: string, depth: nat, seen: set<string>): set<string>
    requires depth <= MAX_CHAIN_DEPTH
    decreases MAX_CHAIN_DEPTH + 2 - depth, 0, |members|
  {
    if members == [] then {}
    else
      var n := |members| - 1;
      TurnedAwayAll(inp, members[..n], line, router, depth, seen)
        + TurnedAway(inp, members[n], router, depth + 1, ClassifyAll(inp, members[..n], line, router, depth, seen).seen)
  }

  /** Every link out of a name marked since `seen` leads to a name marked or turned away. */
  ghost predicate Closed(reg: Registry, seen: set<string>, seen': set<string>, turned: set<string>) {
    forall a, b :: a in seen' && a !in seen && Link(reg, a, b) ==> b in seen' + turned
  }

  ghost predicate AllIn(members: seq<string>, met: set<string>) {
    forall i :: 0 <= i < |members| && BareName(members[i]) != "" ==> BareName(members[i]) in met
  }

  lemma OneMoreIn(members: seq<string>, a: set<string>, b: set<string>)
    requires members != [] && AllIn(members[..|members| - 1], a) && a <= b
    requires BareName(members[|members| - 1]) != "" ==> BareName(members[|members| - 1]) in b
    ensures AllIn(members, b)
  {
    forall i | 0 <= i < |members| && BareName(members[i]) != "" ensures BareName(members[i]) in b {
      if i < |members| - 1 {
        assert members[..|members| - 1][i] == members[i];
      }
    }
  }

  lemma ClosedTwice(reg: Registry, a: set<string>, b: set<string>, c: set<string>, t: set<string>, u: set<string>)
    requires a <= b <= c && Closed(reg, a, b, t) && Closed(reg, b, c, u)
    ensures Closed(reg, a, c, t + u)
  {
  }

  lemma LeafCloses(reg: Registry, seen: set<string>, bare: string)
    requires !(bare in reg && reg[bare].kind.Chain?)
    ensures Closed(reg, seen, seen + {bare}, {})
  {
  }

  lemma ChainCloses(reg: Registry, seen: set<string>, bare: string, seen': set<string>, turned: set<string>)
    requires bare in reg && reg[bare].kind.Chain? && AllIn(reg[bare].kind.members, seen' + turned)
    requires Closed(reg, seen + {bare}, seen', turned)
    ensures Closed(reg, seen, seen', turned)
  {
  }

  /** The walk from one reference: the name itself, and every link out of what it marks, is marked or turned away. */
  lemma {:induction false} WalkCloses(inp: Input, ref: string, router: string, depth: nat, seen: set<string>)
    requires depth <= MAX_CHAIN_DEPTH + 1
    ensures var f, turned := Classify(inp, ref, router, depth, seen), TurnedAway(inp, ref, router, depth, seen);
      && seen <= f.seen && Closed(inp.registry, seen, f.seen, turned)
      && (BareName(ref) != "" ==> BareName(ref) in f.seen + turned)
    decreases MAX_CHAIN_DEPTH + 2 - depth, 1, 0
  {
    var bare := BareName(ref);
    if !Stops(ref, depth, seen) {
      if bare in inp.registry && inp.registry[bare].kind.Chain? {
        var def := inp.registry[bare];
        var line := ThroughChain(bare, def.stack, def.service);
        var marked := seen + {bare};
        WalkAllCloses(inp, def.kind.members, line, router, depth, marked);
        ChainCloses(inp.registry, seen, bare, ClassifyAll(inp, def.kind.members, line, router, depth, marked).seen,
                    TurnedAwayAll(inp, def.kind.members, line, router, depth, marked));
      } else {
        LeafCloses(inp.registry, seen, bare);
      }
    }
  }

  lemma {:induction false} WalkAllCloses(inp: Input, members: seq<string>, line: Line, router: string, depth: nat, seen: set<string>)
    requires depth <= MAX_CHAIN_DEPTH
    ensures var f, turned := ClassifyAll(inp, members, line, router, depth, seen), TurnedAwayAll(inp, members, line, router, depth, seen);
      seen <= f.seen && Closed(inp.registry, seen, f.seen, turned) && AllIn(members, f.seen + turned)
    decreases MAX_CHAIN_DEPTH + 2 - depth, 0, |members|
  {
    if members != [] {
      var n := |members| - 1;
      WalkAllCloses(inp, members[..n], line, router, depth, seen);
      var rest, t := ClassifyAll(inp, members[..n], line, router, depth, seen), TurnedAwayAll(inp, members[..n], line, router, depth, seen);
      WalkCloses(inp, members[n], router, depth + 1, rest.seen);
      var last, u := Classify(inp, members[n], router, depth + 1, rest.seen), TurnedAway(inp, members[n], router, depth + 1, rest.seen);
      ClosedTwice(inp.registry, seen, rest.seen, last.seen, t, u);
      OneMoreIn(members, rest.seen + t, last.seen + (t + u));
    }
  }

  // ---------------------------------------------------------------------------
  // What is turned away
  // ---------------------------------------------------------------------------

  lemma PathExtends(reg: Registry, path: seq<string>, b: string)
    requires SimplePath(reg, path) && Link(reg, path[|path| - 1], b) && b !in path
    ensures SimplePath(reg, path + [b])
  {
    var p := path + [b];
    forall i | 0 <= i < |p| - 1 ensures Link(reg, p[i], p[i + 1]) {
      if i < |path| - 1 {
        assert Link(reg, path[i], path[i + 1]);
      }
    }
  }

  /** The walk is about to meet `bare`, having come along `path`, all of it marked. */
  ghost predicate Meets(reg: Registry, path: seq<string>, bare: string, seen: set<string>) {
    && (forall i :: 0 <= i < |path| ==> path[i] in seen) && |path| <= MAX_CHAIN_DEPTH + 1
    && (bare !in seen ==> SimplePath(reg, path + [bare]))
  }

  /** A repetition-free chain path on from `path` to `t`, one link longer than the cap. */
  ghost predicate TooLong(reg: Registry, path: seq<string>, t: string, p: seq<string>) {
    SimplePath(reg, p) && path <= p && |p| == MAX_CHAIN_DEPTH + 2 && p[|p| - 1] == t
  }

  /** A name turned away stands at the end of such a path. */
  lemma {:induction false} TurnedAwayIsFar(inp: Input, ref: string, router: string, seen: set<string>, path: seq<string>, t: string)
    returns (p: seq<string>)
    requires Meets(inp.registry, path, BareName(ref), seen) && t in TurnedAway(inp, ref, router, |path|, seen)
    ensures TooLong(inp.registry, path + [BareName(ref)], t, p)
    decreases MAX_CHAIN_DEPTH + 2 - |path|, 1, 0
  {
    var bare := BareName(ref);
    p := path + [bare];
    if |path| <= MAX_CHAIN_DEPTH {
      var def := inp.registry[bare];
      p := MemberIsFar(inp, bare, def.kind.members, ThroughChain(bare, def.stack, def.service), router, seen + {bare}, p, t);
    }
  }

  lemma {:induction false} MemberIsFar(inp: Input, chain: string, members: seq<string>, line: Line, router: string,
                                       seen: set<string>, path: seq<string>, t: string) returns (p: seq<string>)
    requires chain in inp.registry && inp.registry[chain].kind.Chain? && members <= inp.registry[chain].kind.members
    requires SimplePath(inp.registry, path) && path[|path| - 1] == chain && |path| <= MAX_CHAIN_DEPTH + 1
    requires forall i :: 0 <= i < |path| ==> path[i] in seen
    requires t in TurnedAwayAll(inp, members, line, router, |path| - 1, seen)
    ensures TooLong(inp.registry, path, t, p)
    decreases MAX_CHAIN_DEPTH + 3 - |path|, 0, |members|
  {
    var n := |members| - 1;
    if t in TurnedAwayAll(inp, members[..n], line, router, |path| - 1, seen) {
      p := MemberIsFar(inp, chain, members[..n], line, router, seen, path, t);
    } else {
      var rest := ClassifyAll(inp, members[..n], line, router, |path| - 1, seen);
      WalkAllAccounts(inp, members[..n], line, router, |path| - 1, seen);
      MemberIsMet(inp.registry, chain, members, path, rest.seen);
      p := TurnedAwayIsFar(inp, members[n], router, rest.seen, path, t);
    }
  }

  lemma MemberIsMet(reg: Registry, chain: string, members: seq<string>, path: seq<string>, seen: set<string>)
    requires chain in reg && reg[chain].kind.Chain? && members != [] && members <= reg[chain].kind.members
    requires SimplePath(reg, path) && path[|path| - 1] == chain && |path| <= MAX_CHAIN_DEPTH + 1
    requires forall i :: 0 <= i < |path| ==> path[i] in seen
    ensures BareName(members[|members| - 1]) != "" ==> Meets(reg, path, BareName(members[|members| - 1]), seen)
  {
    var n := |members| - 1;
    var bare := BareName(members[n]);
    if bare != "" {
      assert reg[chain].kind.members[n] == members[n];
      assert Link(reg, chain, bare);
      if bare !in seen {
        PathExtends(reg, path, bare);
      }
    }
  }

  lemma {:induction false} PathReaches(reg: Registry, p: seq<string>)
    requires p != [] && forall i :: 0 <= i < |p| - 1 ==> Link(reg, p[i], p[i + 1])
    ensures Within(reg, p[0], p[|p| - 1], |p| - 1)
  {
    if |p| > 1 {
      forall i | 0 <= i < |p[1..]| - 1 ensures Link(reg, p[1..][i], p[1..][i + 1]) {
        assert Link(reg, p[i + 1], p[i + 2]);
      }
      PathReaches(reg, p[1..]);
      assert Link(reg, p[0], p[1]);
    }
  }

  lemma {:induction false} WithinTwice(reg: Registry, a: string, b: string, c: string, m: nat, n: nat)
    requires Within(reg, a, b, m) && Within(reg, b, c, n)
    ensures Within(reg, a, c, m + n)
    decreases m
  {
    if a == b {
      WithinMore(reg, a, c, n, m + n);
    } else {
      var x :| Link(reg, a, x) && Within(reg, x, b, m - 1);
      WithinTwice(reg, x, b, c, m - 1, n);
    }
  }

  lemma {:induction false} WithinMore(reg: Registry, a: string, b: string, m: nat, n: nat)
    requires Within(reg, a, b, m) && m <= n
    ensures Within(reg, a, b, n)
    decreases m
  {
    if a != b {
      var x :| Link(reg, a, x) && Within(reg, x, b, m - 1);
      WithinMore(reg, x, b, m - 1, n - 1);
    }
  }

  // ---------------------------------------------------------------------------
  // Main results
  // ---------------------------------------------------------------------------

  /** Reading one reference reports gates only, each once, each at most MAX_CHAIN_DEPTH chain links away. */
  lemma ReportsAreReachableGates(inp: Input, ref: string, router: string)
    ensures var gates := Gates(Classify(inp, ref, router, 0, {}).accounts);
      && Distinct(gates)
      && forall g :: g in gates ==> IsGate(inp, g) && Within(inp.registry, BareName(ref), g, MAX_CHAIN_DEPTH)
  {
    WalkAccounts(inp, ref, router, 0, {});
    var f := Classify(inp, ref, router, 0, {});
    forall g | g in Gates(f.accounts) ensures Within(inp.registry, BareName(ref), g, MAX_CHAIN_DEPTH) {
      WalkIsSound(inp, ref, router, 0, {}, g);
    }
  }

  /** The names turned away at the cap that the whole walk from `ref` never marks. */
  function Cut(inp: Input, ref: string, router: string): set<string> {
    TurnedAway(inp, ref, router, 0, {}) - Classify(inp, ref, router, 0, {}).seen
  }

  /** A chain path from a marked name to a name never marked leaves the marked ones through a name that was cut. */
  lemma {:induction false} LeavesByACut(inp: Input, ref: string, router: string, from: string, to: string, n: nat) returns (t: string)
    requires from in Classify(inp, ref, router, 0, {}).seen && to !in Classify(inp, ref, router, 0, {}).seen
    requires Within(inp.registry, from, to, n)
    ensures t in Cut(inp, ref, router) && Reaches(inp.registry, t, to)
    decreases n
  {
    WalkCloses(inp, ref, router, 0, {});
    var m :| Link(inp.registry, from, m) && Within(inp.registry, m, to, n - 1);
    if m in Classify(inp, ref, router, 0, {}).seen {
      t := LeavesByACut(inp, ref, router, m, to, n - 1);
    } else {
      t := m;
    }
  }

  lemma CutIsReached(inp: Input, ref: string, router: string, t: string)
    requires t in TurnedAway(inp, ref, router, 0, {})
    ensures exists p :: TooLong(inp.registry, [BareName(ref)], t, p)
    ensures Within(inp.registry, BareName(ref), t, MAX_CHAIN_DEPTH + 1)
  {
    assert [] + [BareName(ref)] == [BareName(ref)];
    var p := TurnedAwayIsFar(inp, ref, router, {}, [], t);
    PathReaches(inp.registry, p);
  }

  /** The walk reports every gate reachable from its reference. */
  ghost predicate Complete(inp: Input, ref: string, router: string) {
    forall g :: IsGate(inp, g) && Reaches(inp.registry, BareName(ref), g) ==> g in Gates(Classify(inp, ref, router, 0, {}).accounts)
  }

  /** What is reported is exactly the reachable gates, save those met only beyond a name that was cut: `g` is missed if
      and only if some cut name leads to it and the walk marked it nowhere else. */
  lemma MissedExactlyBeyondACut(inp: Input, ref: string, router: string, g: string)
    requires BareName(ref) != "" && IsGate(inp, g)
    ensures var f := Classify(inp, ref, router, 0, {});
      (Reaches(inp.registry, BareName(ref), g) && g !in Gates(f.accounts)) <==>
      (g !in f.seen && exists t :: t in Cut(inp, ref, router) && Reaches(inp.registry, t, g))
  {
    var root, f := BareName(ref), Classify(inp, ref, router, 0, {});
    WalkAccounts(inp, ref, router, 0, {});
    if Reaches(inp.registry, root, g) && g !in f.seen {
      var n: nat :| Within(inp.registry, root, g, n);
      var t := LeavesByACut(inp, ref, router, root, g, n);
    }
    if t :| t in Cut(inp, ref, router) && Reaches(inp.registry, t, g) {
      CutIsReached(inp, ref, router, t);
      var n: nat :| Within(inp.registry, t, g, n);
      WithinTwice(inp.registry, root, t, g, MAX_CHAIN_DEPTH + 1, n);
    }
  }

  /** The walk is complete if and only if every gate a cut name leads to was marked some other way. */
  lemma CompleteExactly(inp: Input, ref: string, router: string)
    requires BareName(ref) != ""
    ensures Complete(inp, ref, router) <==>
      forall t, g :: t in Cut(inp, ref, router) && IsGate(inp, g) && Reaches(inp.registry, t, g) ==> g in Classify(inp, ref, router, 0, {}).seen
  {
    var f := Classify(inp, ref, router, 0, {});
    forall g | IsGate(inp, g)
      ensures (Reaches(inp.registry, BareName(ref), g) && g !in Gates(f.accounts)) <==>
        (g !in f.seen && exists t :: t in Cut(inp, ref, router) && Reaches(inp.registry, t, g))
    {
      MissedExactlyBeyondACut(inp, ref, router, g);
    }
  }

  /** Nothing is cut when no repetition-free chain path is longer than the cap, and then exactly the reachable gates are
      reported. */
  lemma ShallowIsComplete(inp: Input, ref: string, router: string, g: string)
    requires BareName(ref) != "" && Shallow(inp.registry, BareName(ref))
    ensures TurnedAway(inp, ref, router, 0, {}) == {}
    ensures g in Gates(Classify(inp, ref, router, 0, {}).accounts) <==> IsGate(inp, g) && Reaches(inp.registry, BareName(ref), g)
  {
    forall t | t in TurnedAway(inp, ref, router, 0, {}) ensures false {
      CutIsReached(inp, ref, router, t);
    }
    ReportsAreReachableGates(inp, ref, router);
    if IsGate(inp, g) {
      MissedExactlyBeyondACut(inp, ref, router, g);
    }
  }

  // ---------------------------------------------------------------------------
  // Read off the registry alone
  // ---------------------------------------------------------------------------

  /** Some repetition-free chain path from `root` comes to `t` one link past the cap. */
  ghost predicate Deep(reg: Registry, root: string, t: string) {
    exists p :: TooLong(reg, [root], t, p)
  }

  /** A chain path, repetition-free or not, no name of which is deep. */
  ghost predicate SafePath(reg: Registry, q: seq<string>) {
    && q != [] && (forall i :: 0 <= i < |q| - 1 ==> Link(reg, q[i], q[i + 1]))
    && forall i :: 0 <= i < |q| ==> !Deep(reg, q[0], q[i])
  }

  lemma {:induction false} SafeIsMarked(inp: Input, ref: string, router: string, q: seq<string>, i: nat)
    requires BareName(ref) != "" && SafePath(inp.registry, q) && q[0] == BareName(ref) && i < |q|
    ensures q[i] in Classify(inp, ref, router, 0, {}).seen
  {
    WalkCloses(inp, ref, router, 0, {});
    if i > 0 {
      SafeIsMarked(inp, ref, router, q, i - 1);
      assert Link(inp.registry, q[i - 1], q[i]);
    }
    if q[i] in TurnedAway(inp, ref, router, 0, {}) {
      CutIsReached(inp, ref, router, q[i]);
    }
  }

  /** A gate at the end of a safe path is reported, wherever else the walk runs into the cap. */
  lemma SafeIsReported(inp: Input, ref: string, router: string, q: seq<string>)
    requires BareName(ref) != "" && SafePath(inp.registry, q) && q[0] == BareName(ref) && IsGate(inp, q[|q| - 1])
    ensures q[|q| - 1] in Gates(Classify(inp, ref, router, 0, {}).accounts)
  {
    SafeIsMarked(inp, ref, router, q, |q| - 1);
    WalkAccounts(inp, ref, router, 0, {});
  }

  /** When no gate is reachable from any deep name, exactly the reachable gates are reported. */
  lemma HarmlessDepthIsComplete(inp: Input, ref: string, router: string, g: string)
    requires BareName(ref) != ""
    requires forall t, x :: Deep(inp.registry, BareName(ref), t) && IsGate(inp, x) ==> !Reaches(inp.registry, t, x)
    ensures g in Gates(Classify(inp, ref, router, 0, {}).accounts) <==> IsGate(inp, g) && Reaches(inp.registry, BareName(ref), g)
  {
    ReportsAreReachableGates(inp, ref, router);
    if IsGate(inp, g) {
      MissedExactlyBeyondACut(inp, ref, router, g);
      forall t | t in Cut(inp, ref, router) ensures !Reaches(inp.registry, t, g) {
        CutIsReached(inp, ref, router, t);
        assert Deep(inp.registry, BareName(ref), t);
      }
    }
  }

  /** Every name has at most one repetition-free chain path from `root`. */
  ghost predicate OneWayToEach(reg: Registry, root: string) {
    forall p, q :: SimplePath(reg, p) && SimplePath(reg, q) && p[0] == root == q[0] && p[|p| - 1] == q[|q| - 1] ==> p == q
  }

  /** What is within some links is at the end of a repetition-free path no longer than that. */
  lemma {:induction false} WithinHasAPath(reg: Registry, a: string, b: string, n: nat) returns (p: seq<string>)
    requires Within(reg, a, b, n)
    ensures SimplePath(reg, p) && p[0] == a && p[|p| - 1] == b && |p| - 1 <= n
    decreases n
  {
    if a == b {
      p := [a];
    } else {
      var m :| Link(reg, a, m) && Within(reg, m, b, n - 1);
      var q := WithinHasAPath(reg, m, b, n - 1);
      p := PathFrom(reg, a, q);
    }
  }

  /** A name in front of a path, or the path cut down to it. */
  lemma PathFrom(reg: Registry, a: string, q: seq<string>) returns (p: seq<string>)
    requires SimplePath(reg, q) && Link(reg, a, q[0])
    ensures SimplePath(reg, p) && p[0] == a && p[|p| - 1] == q[|q| - 1] && |p| <= |q| + 1
  {
    if a in q {
      p := FromFirst(q, a);
      FromFirstIsPath(reg, q, a);
    } else {
      p := [a] + q;
      forall i | 0 <= i < |p| - 1 ensures Link(reg, p[i], p[i + 1]) {
        if i > 0 {
          assert Link(reg, q[i - 1], q[i]);
        }
      }
    }
  }

  function FromFirst(q: seq<string>, a: string): seq<string> {
    if q == [] || q[0] == a then q else FromFirst(q[1..], a)
  }

  lemma {:induction false} FromFirstIsPath(reg: Registry, q: seq<string>, a: string)
    requires SimplePath(reg, q) && a in q
    ensures var p := FromFirst(q, a); SimplePath(reg, p) && p[0] == a && p[|p| - 1] == q[|q| - 1] && |p| <= |q|
  {
    if q[0] != a {
      forall i | 0 <= i < |q[1..]| - 1 ensures Link(reg, q[1..][i], q[1..][i + 1]) {
        assert Link(reg, q[i + 1], q[i + 2]);
      }
      FromFirstIsPath(reg, q[1..], a);
    }
  }

  lemma ShortOnlyWayIsSafe(reg: Registry, root: string, q: seq<string>)
    requires OneWayToEach(reg, root) && SimplePath(reg, q) && q[0] == root && |q| <= MAX_CHAIN_DEPTH + 1
    ensures SafePath(reg, q)
  {
    forall i | 0 <= i < |q| ensures !Deep(reg, root, q[i]) {
      var short := q[..i + 1];
      forall j | 0 <= j < |short| - 1 ensures Link(reg, short[j], short[j + 1]) { assert Link(reg, q[j], q[j + 1]); }
      assert SimplePath(reg, short) && short[|short| - 1] == q[i];
      forall p | SimplePath(reg, p) && p[0] == root && p[|p| - 1] == q[i] ensures |p| == i + 1 {
        assert p == short;
      }
    }
  }

  /** Where chains branch but never join, a gate is reported exactly when it is within the cap. */
  lemma TreeIsCutAtTheCap(inp: Input, ref: string, router: string, g: string)
    requires BareName(ref) != "" && OneWayToEach(inp.registry, BareName(ref))
    ensures g in Gates(Classify(inp, ref, router, 0, {}).accounts) <==>
      IsGate(inp, g) && Within(inp.registry, BareName(ref), g, MAX_CHAIN_DEPTH)
  {
    ReportsAreReachableGates(inp, ref, router);
    if IsGate(inp, g) && Within(inp.registry, BareName(ref), g, MAX_CHAIN_DEPTH) {
      var q := WithinHasAPath(inp.registry, BareName(ref), g, MAX_CHAIN_DEPTH);
      ShortOnlyWayIsSafe(inp.registry, BareName(ref), q);
      SafeIsReported(inp, ref, router, q);
    }
  }

  // ---------------------------------------------------------------------------
  // The cap can hide a near gate
  // ---------------------------------------------------------------------------

  /** Ten names: the first is a chain of the second and the ninth, each from the second to the ninth is a chain of the
      next alone, and the tenth is a gate. */
  ghost predicate Ladder(reg: Registry, n: seq<string>) {
    && |n| == MAX_CHAIN_DEPTH + 2 && Distinct(n)
    && (forall i :: 0 <= i < |n| ==> n[i] in reg && n[i] != "" && BareName(n[i]) == n[i])
    && reg[n[0]].kind == Chain([n[1], n[MAX_CHAIN_DEPTH]])
    && (forall i :: 0 < i <= MAX_CHAIN_DEPTH ==> reg[n[i]].kind == Chain([n[i + 1]]))
    && reg[n[MAX_CHAIN_DEPTH + 1]].kind == Basic
  }

  lemma OneMember(inp: Input, ref: string, member: string, router: string, depth: nat, seen: set<string>)
    requires !Stops(ref, depth, seen) && BareName(ref) in inp.registry
    requires inp.registry[BareName(ref)].kind == Chain([member])
    requires Classify(inp, member, router, depth + 1, seen + {BareName(ref)}).accounts == []
    ensures var f := Classify(inp, ref, router, depth, seen);
      f.accounts == [] && f.seen == Classify(inp, member, router, depth + 1, seen + {BareName(ref)}).seen
  {
    var def := inp.registry[BareName(ref)];
    var line := ThroughChain(BareName(ref), def.stack, def.service);
    var marked := seen + {BareName(ref)};
    assert [member][..0] == [];
    assert ClassifyAll(inp, [], line, router, depth, marked) == Found([], [], marked);
  }

  ghost function UpTo(n: seq<string>, i: nat): set<string>
    requires i <= |n|
  {
    set j | 0 <= j < i :: n[j]
  }

  /** The long way round comes first, meets the ninth name at the cap, and marks it; its gate is one link past the cap. */
  lemma {:induction false} LongWayFirst(inp: Input, n: seq<string>, router: string, i: nat)
    requires Ladder(inp.registry, n) && 0 < i <= MAX_CHAIN_DEPTH
    ensures var f := Classify(inp, n[i], router, i, UpTo(n, i)); f.accounts == [] && n[MAX_CHAIN_DEPTH] in f.seen
    decreases MAX_CHAIN_DEPTH - i
  {
    assert UpTo(n, i) + {n[i]} == UpTo(n, i + 1);
    if i < MAX_CHAIN_DEPTH {
      LongWayFirst(inp, n, router, i + 1);
    }
    OneMember(inp, n[i], n[i + 1], router, i, UpTo(n, i));
  }

  /** In such a registry a gate two chain links away goes unreported. */
  lemma NearGateIsMissed(inp: Input, n: seq<string>, router: string)
    requires Ladder(inp.registry, n)
    ensures var g := n[MAX_CHAIN_DEPTH + 1];
      IsGate(inp, g) && Within(inp.registry, n[0], g, 2) && g !in Gates(Classify(inp, n[0], router, 0, {}).accounts)
  {
    TwoLinks(inp.registry, n);
    NothingIsFound(inp, n, router);
  }

  lemma TwoLinks(reg: Registry, n: seq<string>)
    requires Ladder(reg, n)
    ensures Within(reg, n[0], n[MAX_CHAIN_DEPTH + 1], 2)
  {
    var mid, g := n[MAX_CHAIN_DEPTH], n[MAX_CHAIN_DEPTH + 1];
    assert reg[n[0]].kind.members[1] == mid && reg[mid].kind.members[0] == g;
    assert Link(reg, mid, g) && Within(reg, g, g, 0);
    assert Link(reg, n[0], mid) && Within(reg, mid, g, 1);
  }

  lemma NothingIsFound(inp: Input, n: seq<string>, router: string)
    requires Ladder(inp.registry, n)
    ensures Classify(inp, n[0], router, 0, {}).accounts == []
  {
    LongWayFirst(inp, n, router, 1);
    assert UpTo(n, 1) == {n[0]};
    var line := ThroughChain(n[0], inp.registry[n[0]].stack, inp.registry[n[0]].service);
    TwoMembers(inp, [n[1], n[MAX_CHAIN_DEPTH]], line, router, {n[0]});
    assert {} + {n[0]} == {n[0]};
  }

  lemma TwoMembers(inp: Input, members: seq<string>, line: Line, router: string, seen: set<string>)
    requires |members| == 2 && Classify(inp, members[0], router, 1, seen).accounts == []
    requires BareName(members[1]) in Classify(inp, members[0], router, 1, seen).seen
    ensures ClassifyAll(inp, members, line, router, 0, seen).accounts == []
  {
    assert members[..1] == [members[0]] && members[..1][..0] == [];
    assert ClassifyAll(inp, [], line, router, 0, seen) == Found([], [], seen);
    assert ClassifyAll(inp, members[..1], line, router, 0, seen).accounts == [];
  }

  function Rung(i: nat): string
    requires i < 10
  {
    [(97 + i) as char]
  }

  function RungKind(i: nat): Kind
    requires i < 10
  {
    if i == 0 then Chain([Rung(1), Rung(8)]) else if i < 9 then Chain([Rung(i + 1)]) else Basic
  }

  function KindOf(s: string): Kind {
    if |s| == 1 && 'a' <= s[0] <= 'j' then RungKind(s[0] as int - 97) else Plain
  }

  function Rungs(): (n: seq<string>)
    ensures |n| == 10 && forall k :: 0 <= k < 10 ==> n[k] == Rung(k)
  {
    seq(10, i requires 0 <= i < 10 => Rung(i))
  }

  function RungRegistry(): Registry {
    map s | s in Rungs() :: Definition(s, KindOf(s), "stack", "service")
  }

  lemma RungIs(k: nat)
    requires k < 10
    ensures Rung(k) != "" && BareName(Rung(k)) == Rung(k) && Rung(k)[0] == (97 + k) as char
    ensures Rung(k) in RungRegistry() && RungRegistry()[Rung(k)].kind == RungKind(k)
  {
    assert BeforeAt(Rung(k)[1..]) == "";
    assert Rungs()[k] == Rung(k);
  }

  /** There is such a registry. */
  lemma LadderExists()
    ensures Ladder(RungRegistry(), Rungs())
  {
    forall k: nat | k < 10
      ensures Rungs()[k] in RungRegistry() && Rungs()[k] != "" && BareName(Rungs()[k]) == Rungs()[k]
      ensures RungRegistry()[Rungs()[k]].kind == RungKind(k) && Rungs()[k][0] == (97 + k) as char
    {
      RungIs(k);
    }
  }
}
