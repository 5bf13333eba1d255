/** How one posture comes of many accounts (labview/internal/labels/posture.go, registry.go), told by the confidences,
    the methods and the references themselves: who wins, what the evidence may say, and which definition is read. */
module PostureMeanings {
  import opened Options
  import opened Lists
  import opened Ordering
  import opened Vocabulary
  import opened Middlewares
  import opened Posture
  import Chains

  // ---------------------------------------------------------------------------
  // Who wins
  // ---------------------------------------------------------------------------

  ghost predicate AsSure(a: Account, b: Account) {
    a.confidence == b.confidence || (a.confidence.UnlistedConfidence? && b.confidence.UnlistedConfidence?)
  }

  ghost predicate AnyAs(accounts: seq<Account>, c: Confidence) { exists a :: a in accounts && a.confidence == c }

  /** Confirmed before observed before inferred before anything else. */
  ghost predicate SurestOf(accounts: seq<Account>, win: Account) {
    && (win.confidence.Confirmed? <==> AnyAs(accounts, Confirmed))
    && (win.confidence.Observed? <==> !AnyAs(accounts, Confirmed) && AnyAs(accounts, Observed))
    && (win.confidence.Inferred? <==> !AnyAs(accounts, Confirmed) && !AnyAs(accounts, Observed) && AnyAs(accounts, Inferred))
  }

  /** Among those as sure, the first method of the list that any of them has. */
  ghost predicate StrongestMethod(accounts: seq<Account>, win: Account, i: nat)
    requires i < |AUTH_METHODS|
  {
    win.auth == AUTH_METHODS[i] <==>
      && (exists a :: a in accounts && AsSure(a, win) && a.auth == AUTH_METHODS[i])
      && forall j, a :: 0 <= j < i && a in accounts && AsSure(a, win) ==> a.auth != AUTH_METHODS[j]
  }

  /** Among those as sure of the same method, a live one. */
  ghost predicate LiveIfAny(accounts: seq<Account>, win: Account) {
    win.live <== exists a :: a in accounts && AsSure(a, win) && a.auth == win.auth && a.live
  }

  lemma RanksAreTheList(m: AuthMethod, i: nat)
    requires i < |AUTH_METHODS|
    ensures (m == AUTH_METHODS[i] <==> m.Rank() == i) && m.Rank() <= |AUTH_METHODS|
  {
  }

  lemma SurenessIs(a: Account, b: Account)
    ensures AsSure(a, b) <==> a.confidence.Rank() == b.confidence.Rank()
  {
  }

  lemma NoneSurer(accounts: seq<Account>, win: Account)
    requires win in accounts && forall a :: a in accounts ==> win.confidence.Rank() <= a.confidence.Rank()
    ensures SurestOf(accounts, win)
  {
  }

  lemma NoneStronger(accounts: seq<Account>, win: Account, i: nat)
    requires i < |AUTH_METHODS| && win in accounts
    requires forall a :: a in accounts && AsSure(a, win) ==> win.auth.Rank() <= a.auth.Rank()
    ensures StrongestMethod(accounts, win, i)
  {
    RanksAreTheList(win.auth, i);
    assert AsSure(win, win);
    if win.auth == AUTH_METHODS[i] {
      forall j, a | 0 <= j < i && a in accounts && AsSure(a, win) ensures a.auth != AUTH_METHODS[j] { RanksAreTheList(a.auth, j); }
    }
    if a :| a in accounts && AsSure(a, win) && a.auth == AUTH_METHODS[i] {
      RanksAreTheList(a.auth, i);
      if win.auth != AUTH_METHODS[i] {
        RanksAreTheList(win.auth, win.auth.Rank());
      }
    }
  }

  /** The account reported, for any groups: the surest; among those the strongest method; among those a live one. */
  lemma ReportedByPrecedence(groups: seq<seq<Account>>, i: nat)
    requires Named(groups) != [] && i < |AUTH_METHODS|
    ensures |Ordered(groups)| > 0
    ensures var win, all := Ordered(groups)[0], Named(groups);
      win in all && SurestOf(all, win) && StrongestMethod(all, win, i) && LiveIfAny(all, win)
  {
    WinnerIsStrongest(groups);
    var win, all := Ordered(groups)[0], Named(groups);
    forall a | a in all ensures win.confidence.Rank() <= a.confidence.Rank() { assert !Stronger(a, win); }
    NoneSurer(all, win);
    forall a | a in all && AsSure(a, win) ensures win.auth.Rank() <= a.auth.Rank() {
      SurenessIs(a, win);
      assert !Stronger(a, win);
    }
    NoneStronger(all, win, i);
    if a :| a in all && AsSure(a, win) && a.auth == win.auth && a.live {
      SurenessIs(a, win);
      assert !Stronger(a, win);
    }
  }

  lemma {:induction false} NamingHas(accounts: seq<Account>, a: Account)
    ensures a in Naming(accounts) <==> a in accounts && !a.auth.Unset?
  {
    if accounts != [] {
      SplitFirst(accounts);
      NamingHas(accounts[1..], a);
    }
  }

  /** Every account that names a method is weighed, whichever group it is in, and no other. */
  lemma {:induction false} WeighedAre(groups: seq<seq<Account>>, a: Account)
    ensures a in Named(groups) <==> !a.auth.Unset? && exists g :: g in groups && a in g
  {
    if groups != [] {
      SplitFirst(groups);
      WeighedAre(groups[1..], a);
      NamingHas(groups[0], a);
    }
  }

  // ---------------------------------------------------------------------------
  // What the evidence may say
  // ---------------------------------------------------------------------------

  /** The account gives the line: one of its own, or that it disagrees with the one reported. */
  ghost predicate Gives(win: Account, a: Account, l: Line) {
    l in a.evidence || (l == Also(a.auth, a.confidence, a.detail) && (a.auth != win.auth || a.detail != win.detail))
  }

  ghost predicate Grounded(all: seq<Account>, l: Line) { exists a :: a in all && Gives(all[0], a, l) }

  lemma {:induction false} DedupeStarts<T(!new)>(a: seq<T>, b: seq<T>)
    ensures Dedupe(a) <= Dedupe(a + b)
  {
    if b == [] {
      assert a + b == a;
    } else {
      var n := |b| - 1;
      DedupeStarts(a, b[..n]);
      assert (a + b)[..|a + b| - 1] == a + b[..n];
    }
  }

  lemma {:induction false} AllLinesStart(win: Account, others: seq<Account>) returns (rest: seq<Line>)
    ensures AllLines(win, others) == win.evidence + rest
  {
    rest := [];
    if others != [] {
      var n := |others| - 1;
      var before := AllLinesStart(win, others[..n]);
      rest := before + LoserLines(win, others[n]);
    }
  }

  lemma LineIsGrounded(all: seq<Account>, l: Line)
    requires all != [] && l in AllLines(all[0], all[1..])
    ensures Grounded(all, l)
  {
    AllLinesHold(all[0], all[1..], l);
    if l in all[0].evidence {
      assert Gives(all[0], all[0], l);
    } else {
      var i :| 0 <= i < |all[1..]| && l in LoserLines(all[0], all[1..][i]);
      assert all[i + 1] in all && Gives(all[0], all[i + 1], l);
    }
  }

  /** A report's evidence opens with the winner's own lines, and every line of it comes from an account weighed; the one
      line that comes from none says that no gate was named, and stands alone. */
  lemma EvidenceIsGrounded(all: seq<Account>, l: Line)
    requires all != []
    ensures l in Resolved(all).evidence ==> Grounded(all, l) || (l.NoGateNamed? && Resolved(all).evidence == [l] && all[0].auth.NoAuth?)
    ensures Dedupe(all[0].evidence) <= Resolved(all).evidence
  {
    var lines := AllLines(all[0], all[1..]);
    var rest := AllLinesStart(all[0], all[1..]);
    DedupeStarts(all[0].evidence, rest);
    DedupeKeeps(lines);
    if l in lines {
      LineIsGrounded(all, l);
    }
  }

  // ---------------------------------------------------------------------------
  // Which references are read
  // ---------------------------------------------------------------------------

  lemma {:induction false} RefsAre(routes: seq<Route>, ref: string, router: string)
    ensures (router, ref) in AllRefs(routes) <==> exists r :: r in routes && r.router == router && ref in r.middlewares
  {
    if routes != [] {
      SplitLast(routes);
      var n := |routes| - 1;
      RefsAre(routes[..n], ref, router);
      RefsOne(routes[n], ref, router);
    }
  }

  lemma RefsOne(route: Route, ref: string, router: string)
    ensures (router, ref) in Refs(route.router, route.middlewares) <==> route.router == router && ref in route.middlewares
  {
    var mine := Refs(route.router, route.middlewares);
    if route.router == router && ref in route.middlewares {
      var i :| 0 <= i < |route.middlewares| && route.middlewares[i] == ref;
      assert mine[i] == (router, ref);
    }
  }

  lemma {:induction false} RefAccountsAre(inp: Input, refs: seq<(string, string)>, a: Account)
    ensures a in RefAccounts(inp, refs) <==> exists r :: r in refs && a in Classify(inp, r.1, r.0, 0, {}).accounts
  {
    if refs != [] {
      SplitLast(refs);
      RefAccountsAre(inp, refs[..|refs| - 1], a);
    }
  }

  /** Every middleware of every router is read, and each walk starts with nothing marked: what one reference met hides
      nothing from the next. */
  lemma EveryReferenceIsRead(inp: Input, routes: seq<Route>, a: Account)
    ensures a in RefAccounts(inp, AllRefs(routes)) <==>
      exists route, ref :: route in routes && ref in route.middlewares && a in Classify(inp, ref, route.router, 0, {}).accounts
  {
    RefAccountsAre(inp, AllRefs(routes), a);
    if r :| r in AllRefs(routes) && a in Classify(inp, r.1, r.0, 0, {}).accounts {
      RefsAre(routes, r.1, r.0);
    }
    if route, ref :| route in routes && ref in route.middlewares && a in Classify(inp, ref, route.router, 0, {}).accounts {
      RefsAre(routes, ref, route.router);
    }
  }

  // ---------------------------------------------------------------------------
  // Which definition is read
  // ---------------------------------------------------------------------------

  ghost predicate Fits(d: Definition, name: string, auth: bool) { d.name == name && (auth ==> d.IsAuth()) }

  /** The definition is the first that fits. */
  ghost predicate FirstNamed(defs: seq<Definition>, name: string, auth: bool, d: Definition) {
    exists i :: 0 <= i < |defs| && defs[i] == d && Fits(d, name, auth) && forall j :: 0 <= j < i ==> !Fits(defs[j], name, auth)
  }

  ghost predicate HasGate(defs: seq<Definition>, name: string) { exists d :: d in defs && Fits(d, name, true) }

  lemma FirstLater(defs: seq<Definition>, name: string, auth: bool, d: Definition)
    requires defs != [] && !Fits(defs[0], name, auth) && FirstNamed(defs[1..], name, auth, d)
    ensures FirstNamed(defs, name, auth, d)
  {
    var i :| 0 <= i < |defs[1..]| && defs[1..][i] == d && forall j :: 0 <= j < i ==> !Fits(defs[1..][j], name, auth);
    assert defs[i + 1] == d;
    assert forall j :: 0 < j < i + 1 ==> defs[j] == defs[1..][j - 1];
  }

  lemma {:induction false} FirstIs(defs: seq<Definition>, name: string, auth: bool)
    ensures var f := First(defs, name, auth);
      && (f.Some? ==> FirstNamed(defs, name, auth, f.value))
      && (f.None? <==> forall d :: d in defs ==> !Fits(d, name, auth))
  {
    if defs != [] {
      SplitFirst(defs);
      if !Fits(defs[0], name, auth) {
        FirstIs(defs[1..], name, auth);
        var f := First(defs[1..], name, auth);
        if f.Some? {
          FirstLater(defs, name, auth, f.value);
        }
      }
    }
  }

  /** The definition registered under a name: the first gate of that name when there is one, and the first definition of
      it otherwise. */
  lemma RegisteredIs(defs: seq<Definition>, name: string)
    ensures var c := Chosen(defs, name);
      && (c.None? <==> forall d :: d in defs ==> d.name != name)
      && (c.Some? ==> FirstNamed(defs, name, HasGate(defs, name), c.value))
  {
    FirstIs(defs, name, true);
    FirstIs(defs, name, false);
  }

  /** What one reference is read as: a defined forward-auth or password prompt is one account, any other definition but a
      chain is none, and a name nobody defines is one account and a note when it reads as a gate, and nothing otherwise. */
  lemma OneReferenceMeans(inp: Input, ref: string, router: string)
    requires BareName(ref) != ""
    ensures var f, b := Classify(inp, ref, router, 0, {}), BareName(ref);
      && (b !in inp.registry ==>
            && (f.accounts != [] <==> inp.reading.gateName(b)) && |f.accounts| <= 1
            && f.notes == if inp.reading.gateName(b) then [Undefined(ref, router)] else [])
      && (b in inp.registry && !inp.registry[b].kind.Chain? ==>
            && |f.accounts| == (if inp.registry[b].kind.Plain? then 0 else 1) && f.notes == [])
  {
  }
}
