/** Reducing every account of one service to the one posture reported (labview/internal/labels/posture.go). */
module Posture {
  import opened Options
  import opened Lists
  import opened Ordering
  import opened Vocabulary
  import opened Middlewares

  datatype Report = Report(auth: AuthMethod, detail: string, confidence: Confidence, evidence: seq<Line>)

  // ---------------------------------------------------------------------------
  // First occurrences
  // ---------------------------------------------------------------------------

  method DedupeLines(lines: seq<Line>) returns (out: seq<Line>)
    ensures out == Dedupe(lines)
  {
    if |lines| < 2 {
      return lines;
    }
    var seen: set<Line> := {};
    out := [];
    var i := 0;
    while i < |lines|
      invariant 0 <= i <= |lines|
      invariant out == Dedupe(lines[..i]) && forall x :: x in seen <==> x in out
    {
      assert lines[..i + 1][..i] == lines[..i];
      if lines[i] !in seen {
        seen := seen + {lines[i]};
        out := out + [lines[i]];
      }
      i := i + 1;
    }
    assert lines[..i] == lines;
  }

  // ---------------------------------------------------------------------------
  // Accounts that say the same thing
  // ---------------------------------------------------------------------------

  type Key = (AuthMethod, string, Confidence)

  function KeyOf(a: Account): Key { (a.auth, a.detail, a.confidence) }

  /** The position of the account with this key, or the length. */
  function Place(out: seq<Account>, key: Key): (i: nat)
    ensures i <= |out| && (i < |out| ==> KeyOf(out[i]) == key) && forall j :: 0 <= j < i ==> KeyOf(out[j]) != key
  {
    if out == [] || KeyOf(out[0]) == key then 0 else
      var i := Place(out[1..], key);
      assert forall j :: 0 < j < i + 1 ==> out[j] == out[1..][j - 1];
      i + 1
  }

  function Merge(out: seq<Account>, a: Account): seq<Account> {
    var i := Place(out, KeyOf(a));
    if i < |out| then out[i := out[i].(evidence := Dedupe(out[i].evidence + a.evidence))] else out + [a]
  }

  function Collapsed(accounts: seq<Account>): seq<Account> {
    if accounts == [] then [] else Merge(Collapsed(accounts[..|accounts| - 1]), accounts[|accounts| - 1])
  }

  ghost predicate DistinctKeys(out: seq<Account>) {
    forall i, j :: 0 <= i < j < |out| ==> KeyOf(out[i]) != KeyOf(out[j])
  }

  /** `at` says where each key stands. */
  ghost predicate Indexes(at: map<Key, nat>, out: seq<Account>) {
    && (forall k :: k in at ==> at[k] < |out| && KeyOf(out[at[k]]) == k)
    && (forall j :: 0 <= j < |out| ==> KeyOf(out[j]) in at && at[KeyOf(out[j])] == j)
  }

  lemma IndexIsPlace(at: map<Key, nat>, out: seq<Account>, k: Key)
    requires Indexes(at, out)
    ensures Place(out, k) == if k in at then at[k] else |out|
  {
    var i := Place(out, k);
    assert i < |out| ==> KeyOf(out[i]) in at;
  }

  method Collapse(accounts: seq<Account>) returns (out: seq<Account>)
    ensures out == Collapsed(accounts)
  {
    if |accounts| < 2 {
      assert |accounts| == 1 ==> accounts[..0] == [];
      return accounts;
    }
    out := [];
    var at: map<Key, nat> := map[];
    var i := 0;
    while i < |accounts|
      invariant 0 <= i <= |accounts|
      invariant out == Collapsed(accounts[..i])
      invariant Indexes(at, out)
    {
      assert accounts[..i + 1][..i] == accounts[..i];
      out, at := CollapseOne(out, at, accounts[i]);
      i := i + 1;
    }
    assert accounts[..i] == accounts;
  }

  /** The body of that loop. */
  method CollapseOne(out0: seq<Account>, at0: map<Key, nat>, a: Account) returns (out: seq<Account>, at: map<Key, nat>)
    requires Indexes(at0, out0)
    ensures Indexes(at, out) && out == Merge(out0, a)
  {
    out, at := out0, at0;
    IndexIsPlace(at, out, KeyOf(a));
    if KeyOf(a) in at {
      var j := at[KeyOf(a)];
      var evidence := DedupeLines(out[j].evidence + a.evidence);
      out := out[j := out[j].(evidence := evidence)];
    } else {
      at := at[KeyOf(a) := |out|];
      out := out + [a];
    }
  }

  lemma {:induction false} SameKeysSamePlace(a: seq<Account>, b: seq<Account>, k: Key)
    requires |a| == |b| && forall i :: 0 <= i < |a| ==> KeyOf(a[i]) == KeyOf(b[i])
    ensures Place(a, k) == Place(b, k)
  {
    if a != [] {
      SameKeysSamePlace(a[1..], b[1..], k);
    }
  }

  lemma {:induction false} PlaceAfterAppend(out: seq<Account>, a: Account, k: Key)
    ensures Place(out + [a], k) ==
      if Place(out, k) < |out| then Place(out, k) else if k == KeyOf(a) then |out| else |out| + 1
  {
    if out != [] {
      PlaceAfterAppend(out[1..], a, k);
      assert (out + [a])[1..] == out[1..] + [a];
    }
  }

  /** `out` has an account of `a`'s key that carries all its lines. */
  ghost predicate Covers(out: seq<Account>, a: Account) {
    var i := Place(out, KeyOf(a));
    i < |out| && forall l :: l in a.evidence ==> l in out[i].evidence
  }

  ghost predicate Said(accounts: seq<Account>, key: Key, l: Line) {
    exists a :: a in accounts && KeyOf(a) == key && l in a.evidence
  }

  /** Every line of `b` comes from an account of its key. */
  ghost predicate Stems(accounts: seq<Account>, b: Account) {
    (exists a :: a in accounts && KeyOf(a) == KeyOf(b)) && forall l :: l in b.evidence ==> Said(accounts, KeyOf(b), l)
  }

  /** Collapsing loses no evidence and invents none: each key comes out once, carrying exactly the lines of the
      accounts that had it. */
  ghost predicate Gathers(out: seq<Account>, accounts: seq<Account>) {
    && DistinctKeys(out)
    && (forall a :: a in accounts ==> Covers(out, a))
    && (forall i :: 0 <= i < |out| ==> Stems(accounts, out[i]))
  }

  lemma {:induction false} CollapseGathers(accounts: seq<Account>)
    ensures Gathers(Collapsed(accounts), accounts)
  {
    if accounts != [] {
      var n := |accounts| - 1;
      CollapseGathers(accounts[..n]);
      SplitLast(accounts);
      MergeGathers(Collapsed(accounts[..n]), accounts[..n], accounts[n]);
    }
  }

  lemma MergeCovers(out: seq<Account>, a: Account, x: Account)
    requires DistinctKeys(out) && (x == a || Covers(out, x))
    ensures Covers(Merge(out, a), x)
  {
    var i, out' := Place(out, KeyOf(a)), Merge(out, a);
    if i < |out| {
      DedupeKeeps(out[i].evidence + a.evidence);
      SameKeysSamePlace(out, out', KeyOf(x));
    } else {
      PlaceAfterAppend(out, a, KeyOf(x));
    }
  }

  lemma StemsGrow(accounts: seq<Account>, a: Account, b: Account)
    requires Stems(accounts, b)
    ensures Stems(accounts + [a], b)
  {
    var x :| x in accounts && KeyOf(x) == KeyOf(b);
    assert x in accounts + [a];
    forall l | l in b.evidence ensures Said(accounts + [a], KeyOf(b), l) {
      assert Said(accounts, KeyOf(b), l);
      var y :| y in accounts && KeyOf(y) == KeyOf(b) && l in y.evidence;
      assert y in accounts + [a];
    }
  }

  lemma MergedStems(accounts: seq<Account>, a: Account, b: Account)
    requires Stems(accounts, b) && KeyOf(a) == KeyOf(b)
    ensures Stems(accounts + [a], b.(evidence := Dedupe(b.evidence + a.evidence)))
  {
    StemsGrow(accounts, a, b);
    DedupeKeeps(b.evidence + a.evidence);
    assert a in accounts + [a];
    forall l | l in b.evidence + a.evidence ensures Said(accounts + [a], KeyOf(b), l) {
      if l !in b.evidence {
        assert l in a.evidence;
      }
    }
  }

  lemma MergeGathers(out: seq<Account>, accounts: seq<Account>, a: Account)
    requires Gathers(out, accounts)
    ensures Gathers(Merge(out, a), accounts + [a])
  {
    var i, out' := Place(out, KeyOf(a)), Merge(out, a);
    forall x | x in accounts + [a] ensures Covers(out', x) {
      MergeCovers(out, a, x);
    }
    forall j | 0 <= j < |out'| ensures Stems(accounts + [a], out'[j]) {
      if j == i < |out| {
        MergedStems(accounts, a, out[i]);
      } else if j < |out| {
        StemsGrow(accounts, a, out[j]);
      } else {
        assert a in accounts + [a];
        assert forall l :: l in a.evidence ==> Said(accounts + [a], KeyOf(a), l);
      }
    }
  }

  // ---------------------------------------------------------------------------
  // The one posture
  // ---------------------------------------------------------------------------

  /** Stronger confidence first, then stronger method, then a live account. */
  predicate Stronger(a: Account, b: Account) {
    if a.confidence.Rank() != b.confidence.Rank() then a.confidence.Rank() < b.confidence.Rank()
    else if a.auth.Rank() != b.auth.Rank() then a.auth.Rank() < b.auth.Rank()
    else a.live && !b.live
  }

  /** Every account of every group that names a method, in the caller's order. */
  function Named(groups: seq<seq<Account>>): seq<Account> {
    if groups == [] then [] else Naming(groups[0]) + Named(groups[1..])
  }

  function Naming(accounts: seq<Account>): seq<Account> {
    if accounts == [] then [] else (if accounts[0].auth.Unset? then [] else [accounts[0]]) + Naming(accounts[1..])
  }

  function Ordered(groups: seq<seq<Account>>): seq<Account> {
    Sort(Stronger, Named(groups))
  }

  /** The lines a losing account adds. */
  function LoserLines(win: Account, other: Account): seq<Line> {
    (if other.auth != win.auth || other.detail != win.detail then [Also(other.auth, other.confidence, other.detail)] else [])
    + other.evidence
  }

  function AllLines(win: Account, others: seq<Account>): seq<Line> {
    if others == [] then win.evidence
    else AllLines(win, others[..|others| - 1]) + LoserLines(win, others[|others| - 1])
  }

  lemma OneMoreLoser(win: Account, others: seq<Account>, i: nat)
    requires i < |others|
    ensures AllLines(win, others[..i + 1]) == AllLines(win, others[..i]) + LoserLines(win, others[i])
  {
    assert others[..i + 1][..i] == others[..i];
  }

  /** The winner's lines and, loser by loser, what disagrees and why. */
  method Evidence(win: Account, others: seq<Account>) returns (evidence: seq<Line>)
    ensures evidence == AllLines(win, others)
  {
    evidence := win.evidence;
    var i := 0;
    while i < |others|
      invariant 0 <= i <= |others| && evidence == AllLines(win, others[..i])
    {
      OneMoreLoser(win, others, i);
      evidence := AddLoser(evidence, win, others[i]);
      i := i + 1;
    }
    assert others[..i] == others;
  }

  /** The body of that loop. */
  method AddLoser(before: seq<Line>, win: Account, other: Account) returns (evidence: seq<Line>)
    ensures evidence == before + LoserLines(win, other)
  {
    evidence := before;
    if other.auth != win.auth || other.detail != win.detail {
      evidence := evidence + [Also(other.auth, other.confidence, other.detail)];
    }
    evidence := evidence + other.evidence;
  }

  method Resolve(groups: seq<seq<Account>>) returns (out: Report)
    ensures Named(groups) == [] ==> out == Report(NoAuth, "", Observed, [NoGateNamed])
    ensures Named(groups) != [] ==> |Ordered(groups)| > 0 && out == Resolved(Ordered(groups))
  {
    var all := Ordered(groups);
    SortKeepsLength(Named(groups));
    if |all| == 0 {
      return Report(NoAuth, "", Observed, [NoGateNamed]);
    }
    out := Report(all[0].auth, all[0].detail, all[0].confidence, []);
    var evidence := Evidence(all[0], all[1..]);
    var lines := DedupeLines(evidence);
    out := out.(evidence := lines);
    if out.auth == NoAuth && |out.evidence| == 0 {
      out := out.(evidence := [NoGateNamed]);
    }
  }

  function Resolved(all: seq<Account>): Report
    requires all != []
  {
    var lines := Dedupe(AllLines(all[0], all[1..]));
    Report(all[0].auth, all[0].detail, all[0].confidence,
           if all[0].auth == NoAuth && lines == [] then [NoGateNamed] else lines)
  }

  lemma SortKeepsLength(s: seq<Account>)
    ensures |Sort(Stronger, s)| == |s|
  {
    StrongerIsAnOrder();
    SortSorts(Stronger, s);
  }

  lemma {:induction false} AllLinesHold(win: Account, others: seq<Account>, l: Line)
    ensures l in AllLines(win, others) <==>
      (l in win.evidence || exists i :: 0 <= i < |others| && l in LoserLines(win, others[i]))
  {
    if others != [] {
      var n := |others| - 1;
      AllLinesHold(win, others[..n], l);
      if exists i :: 0 <= i < |others| && l in LoserLines(win, others[i]) {
        var i :| 0 <= i < |others| && l in LoserLines(win, others[i]);
        if i < n {
          assert others[..n][i] == others[i];
        }
      }
    }
  }

  lemma StrongerIsAnOrder()
    ensures StrictWeak(Stronger)
  {
  }

  /** No account that names a method outranks the one reported. */
  lemma WinnerIsStrongest(groups: seq<seq<Account>>)
    requires Named(groups) != []
    ensures |Ordered(groups)| > 0
    ensures var win := Ordered(groups)[0]; win in Named(groups) && forall a :: a in Named(groups) ==> !Stronger(a, win)
  {
    StrongerIsAnOrder();
    SortSorts(Stronger, Named(groups));
    var all := Ordered(groups);
    assert all[0] in all;
    forall a | a in all ensures !Stronger(a, all[0]) {
      var i :| 0 <= i < |all| && all[i] == a;
    }
  }

  lemma EvidenceIsKept(all: seq<Account>, a: Account)
    requires a in all
    ensures forall l :: l in a.evidence ==> l in Dedupe(AllLines(all[0], all[1..]))
    ensures a.auth != all[0].auth || a.detail != all[0].detail ==>
      Also(a.auth, a.confidence, a.detail) in Dedupe(AllLines(all[0], all[1..]))
  {
    var win, others := all[0], all[1..];
    DedupeKeeps(AllLines(win, others));
    forall l | l in a.evidence || (a != win && l in LoserLines(win, a)) ensures l in AllLines(win, others) {
      AllLinesHold(win, others, l);
      if a != win {
        var i :| 0 <= i < |all| && all[i] == a;
        assert others[i - 1] == a;
      }
    }
    if a.auth != win.auth || a.detail != win.detail {
      assert LoserLines(win, a)[0] == Also(a.auth, a.confidence, a.detail);
    }
  }

  /** For any groups: the report is of an account no other outranks; its evidence repeats no line, holds every line
      of every account that names a method, and names every account that disagrees on the method or the detail. */
  lemma ResolveReportsTheStrongest(groups: seq<seq<Account>>)
    requires Named(groups) != []
    ensures |Ordered(groups)| > 0
    ensures var win, out := Ordered(groups)[0], Resolved(Ordered(groups));
      && win in Named(groups) && (forall a :: a in Named(groups) ==> !Stronger(a, win))
      && out.auth == win.auth && out.detail == win.detail && out.confidence == win.confidence
    ensures Distinct(Resolved(Ordered(groups)).evidence)
    ensures forall a, l :: a in Named(groups) && l in a.evidence ==> l in Resolved(Ordered(groups)).evidence
    ensures forall a :: a in Named(groups) && (a.auth != Ordered(groups)[0].auth || a.detail != Ordered(groups)[0].detail) ==>
      Also(a.auth, a.confidence, a.detail) in Resolved(Ordered(groups)).evidence
  {
    WinnerIsStrongest(groups);
    StrongerIsAnOrder();
    SortSorts(Stronger, Named(groups));
    var all := Ordered(groups);
    DedupeKeeps(AllLines(all[0], all[1..]));
    forall a | a in Named(groups)
      ensures forall l :: l in a.evidence ==> l in Resolved(all).evidence
      ensures a.auth != all[0].auth || a.detail != all[0].detail ==> Also(a.auth, a.confidence, a.detail) in Resolved(all).evidence
    {
      assert a in all;
      EvidenceIsKept(all, a);
    }
  }

  /** However the same accounts are grouped and ordered, the report's ranks are the same. */
  lemma RanksDoNotDependOnOrder(groups: seq<seq<Account>>, groups': seq<seq<Account>>)
    requires multiset(Named(groups)) == multiset(Named(groups')) && Named(groups) != []
    ensures |Ordered(groups)| > 0 && |Ordered(groups')| > 0
    ensures var a, b := Ordered(groups)[0], Ordered(groups')[0];
      a.confidence.Rank() == b.confidence.Rank() && a.auth.Rank() == b.auth.Rank() && a.live == b.live
  {
    assert |multiset(Named(groups))| == |multiset(Named(groups'))|;
    WinnerIsStrongest(groups);
    WinnerIsStrongest(groups');
    var a, b := Ordered(groups)[0], Ordered(groups')[0];
    assert a in multiset(Named(groups)) && b in multiset(Named(groups'));
    assert !Stronger(a, b) && !Stronger(b, a);
  }

  /** Accounts that tie are told apart only by the caller's order: the first of them is reported. */
  lemma TiesGoToTheFirst(groups: seq<seq<Account>>)
    requires Named(groups) != []
    ensures |Ordered(groups)| > 0
    ensures var win := Ordered(groups)[0];
      Ties(Stronger, win, Named(groups)) != [] && Ties(Stronger, win, Named(groups))[0] == win
  {
    StrongerIsAnOrder();
    SortSorts(Stronger, Named(groups));
    var all := Ordered(groups);
    SortIsStable(Stronger, Named(groups), all[0]);
    assert Ties(Stronger, all[0], all)[0] == all[0];
  }

  ghost predicate StrongestAddressed(groups: seq<seq<Account>>, a: Account) {
    forall b :: b in Named(groups) && b.address != "" ==> !Stronger(b, a)
  }

  /** The first addressed account of the order is a strongest one. */
  lemma FirstAddressed(groups: seq<seq<Account>>, i: nat)
    requires i < |Ordered(groups)| && forall j :: 0 <= j < i ==> Ordered(groups)[j].address == ""
    ensures Ordered(groups)[i] in Named(groups) && StrongestAddressed(groups, Ordered(groups)[i])
  {
    var all := Ordered(groups);
    StrongerIsAnOrder();
    SortSorts(Stronger, Named(groups));
    assert all[i] in all;
    forall b | b in Named(groups) && b.address != "" ensures !Stronger(b, all[i]) {
      assert b in all;
      var j :| 0 <= j < |all| && all[j] == b;
    }
  }

  lemma NoneAddressed(groups: seq<seq<Account>>, a: Account)
    requires a in Named(groups) && forall j :: 0 <= j < |Ordered(groups)| ==> Ordered(groups)[j].address == ""
    ensures a.address == ""
  {
    StrongerIsAnOrder();
    SortSorts(Stronger, Named(groups));
    assert a in Ordered(groups);
  }

  method SearchAddress(all: seq<Account>) returns (i: nat)
    ensures i <= |all| && (i < |all| ==> all[i].address != "") && forall j :: 0 <= j < i ==> all[j].address == ""
  {
    i := 0;
    while i < |all| && all[i].address == ""
      invariant 0 <= i <= |all| && forall j :: 0 <= j < i ==> all[j].address == ""
    {
      i := i + 1;
    }
  }

  /** Where the strongest gate that has an address is reached. */
  method GateAddress(groups: seq<seq<Account>>) returns (address: string)
    ensures address == "" <==> forall a :: a in Named(groups) ==> a.address == ""
    ensures address != "" ==> exists a :: a in Named(groups) && a.address == address && StrongestAddressed(groups, a)
  {
    var all := Ordered(groups);
    var i := SearchAddress(all);
    if i < |all| {
      FirstAddressed(groups, i);
      return all[i].address;
    }
    forall a | a in Named(groups) ensures a.address == "" { NoneAddressed(groups, a); }
    address := "";
  }

  // ---------------------------------------------------------------------------
  // From labels
  // ---------------------------------------------------------------------------

  datatype Route = Route(router: string, middlewares: seq<string>)

  /** The references of every router in order, each with its router. */
  function Refs(router: string, middlewares: seq<string>): (r: seq<(string, string)>)
    ensures |r| == |middlewares| && forall i :: 0 <= i < |r| ==> r[i] == (router, middlewares[i])
  {
    seq(|middlewares|, i requires 0 <= i < |middlewares| => (router, middlewares[i]))
  }

  function AllRefs(routes: seq<Route>): seq<(string, string)> {
    if routes == [] then [] else AllRefs(routes[..|routes| - 1]) + Refs(routes[|routes| - 1].router, routes[|routes| - 1].middlewares)
  }

  /** The accounts of the references, each walked with a map of its own. */
  function RefAccounts(inp: Input, refs: seq<(string, string)>): seq<Account> {
    if refs == [] then [] else
      RefAccounts(inp, refs[..|refs| - 1]) + Classify(inp, refs[|refs| - 1].1, refs[|refs| - 1].0, 0, {}).accounts
  }

  function RefNotes(inp: Input, refs: seq<(string, string)>): seq<Line> {
    if refs == [] then [] else RefNotes(inp, refs[..|refs| - 1]) + Classify(inp, refs[|refs| - 1].1, refs[|refs| - 1].0, 0, {}).notes
  }

  /** `FromLabels`: routers, then the accounts access policies and the environment give, collapsed; and the notes, once. */
  method FromLabels(inp: Input, routes: seq<Route>, others: seq<Account>) returns (out: seq<Account>, notes: seq<Line>)
    ensures out == Collapsed(RefAccounts(inp, AllRefs(routes)) + others)
    ensures Gathers(out, RefAccounts(inp, AllRefs(routes)) + others)
    ensures notes == Dedupe(RefNotes(inp, AllRefs(routes)))
  {
    var accounts: seq<Account> := [];
    notes := [];
    var i := 0;
    while i < |routes|
      invariant 0 <= i <= |routes|
      invariant accounts == RefAccounts(inp, AllRefs(routes[..i])) && notes == RefNotes(inp, AllRefs(routes[..i]))
    {
      assert routes[..i + 1][..i] == routes[..i];
      accounts, notes := WalkRoute(inp, routes[i], AllRefs(routes[..i]), accounts, notes);
      i := i + 1;
    }
    assert routes[..i] == routes;
    out := Collapse(accounts + others);
    notes := DedupeLines(notes);
    CollapseGathers(accounts + others);
  }

  /** One reference, walked with a map of its own. */
  method WalkRef(inp: Input, ref: string, router: string) returns (accounts: seq<Account>, notes: seq<Line>)
    ensures accounts == Classify(inp, ref, router, 0, {}).accounts && notes == Classify(inp, ref, router, 0, {}).notes
  {
    var seen := new Seen();
    accounts, notes := ClassifyInto(inp, ref, router, 0, seen);
  }

  /** One router's middlewares, added to what the routers before it gave. */
  method WalkRoute(inp: Input, route: Route, ghost before: seq<(string, string)>, accounts0: seq<Account>, notes0: seq<Line>)
    returns (accounts: seq<Account>, notes: seq<Line>)
    requires accounts0 == RefAccounts(inp, before) && notes0 == RefNotes(inp, before)
    ensures accounts == RefAccounts(inp, before + Refs(route.router, route.middlewares))
    ensures notes == RefNotes(inp, before + Refs(route.router, route.middlewares))
  {
    accounts, notes := accounts0, notes0;
    ghost var mine := Refs(route.router, route.middlewares);
    var j := 0;
    assert before + mine[..0] == before;
    while j < |route.middlewares|
      invariant 0 <= j <= |route.middlewares|
      invariant accounts == RefAccounts(inp, before + mine[..j]) && notes == RefNotes(inp, before + mine[..j])
    {
      OneMoreRef(inp, before, mine, j);
      var got, gotNotes := WalkRef(inp, route.middlewares[j], route.router);
      accounts, notes := accounts + got, notes + gotNotes;
      j := j + 1;
    }
    assert mine[..j] == mine;
  }

  lemma OneMoreRef(inp: Input, before: seq<(string, string)>, mine: seq<(string, string)>, j: nat)
    requires j < |mine|
    ensures var so, more, f := before + mine[..j], before + mine[..j + 1], Classify(inp, mine[j].1, mine[j].0, 0, {});
      RefAccounts(inp, more) == RefAccounts(inp, so) + f.accounts && RefNotes(inp, more) == RefNotes(inp, so) + f.notes
  {
    var so, more := before + mine[..j], before + mine[..j + 1];
    assert more == so + [mine[j]] && more[..|so|] == so;
  }

  // ---------------------------------------------------------------------------
  // Notes
  // ---------------------------------------------------------------------------

  /** The account was read off the name of this undefined reference. */
  ghost predicate Guessed(a: Account, ref: string, router: string) {
    |a.evidence| >= 2 && a.evidence[0] == Applies(router, ref) && a.evidence[1].NameIsEvidence?
  }

  ghost predicate SomeGuess(accounts: seq<Account>, ref: string, router: string) {
    exists a :: a in accounts && Guessed(a, ref, router)
  }

  lemma GuessesAppend(a: seq<Account>, b: seq<Account>, ref: string, router: string)
    ensures SomeGuess(a + b, ref, router) <==> SomeGuess(a, ref, router) || SomeGuess(b, ref, router)
  {
    assert forall x :: x in a + b <==> x in a || x in b;
  }

  /** Every account the walk gives opens with its reference and where it was read. */
  ghost predicate Opened(accounts: seq<Account>) { forall a :: a in accounts ==> |a.evidence| >= 2 }

  lemma GuessesThrough(accounts: seq<Account>, line: Line, ref: string, router: string)
    requires Opened(accounts)
    ensures Opened(Through(accounts, line))
    ensures SomeGuess(Through(accounts, line), ref, router) <==> SomeGuess(accounts, ref, router)
  {
    var r := Through(accounts, line);
    forall i | 0 <= i < |r| ensures |r[i].evidence| >= 2 && (Guessed(r[i], ref, router) <==> Guessed(accounts[i], ref, router)) {
      assert accounts[i] in accounts;
    }
    if a :| a in accounts && Guessed(a, ref, router) {
      var i :| 0 <= i < |accounts| && accounts[i] == a;
      assert r[i] in r;
    }
  }

  lemma {:induction false} WalkNotesGuesses(inp: Input, ref: string, router: string, depth: nat, seen: set<string>, r: string, on: string)
    ensures var f := Classify(inp, ref, router, depth, seen);
      Opened(f.accounts) && (Undefined(r, on) in f.notes <==> SomeGuess(f.accounts, r, on))
    decreases MAX_CHAIN_DEPTH + 1 - depth, 1, 0
  {
    var bare := BareName(ref);
    if !Stops(ref, depth, seen) {
      if bare in inp.registry && inp.registry[bare].kind.Chain? {
        var def := inp.registry[bare];
        WalkAllNotesGuesses(inp, def.kind.members, ThroughChain(bare, def.stack, def.service), router, depth, seen + {bare}, r, on);
      } else if bare !in inp.registry {
        var (accounts, notes) := FromName(inp, ref, router);
        if accounts != [] {
          assert Guessed(accounts[0], ref, router) && accounts[0].evidence[0] == Applies(router, ref);
        }
      }
    }
  }

  lemma {:induction false} WalkAllNotesGuesses(inp: Input, members: seq<string>, line: Line, router: string, depth: nat,
                                               seen: set<string>, r: string, on: string)
    requires depth <= MAX_CHAIN_DEPTH
    ensures var f := ClassifyAll(inp, members, line, router, depth, seen);
      Opened(f.accounts) && (Undefined(r, on) in f.notes <==> SomeGuess(f.accounts, r, on))
    decreases MAX_CHAIN_DEPTH + 1 - depth, 0, |members|
  {
    if members != [] {
      var n := |members| - 1;
      WalkAllNotesGuesses(inp, members[..n], line, router, depth, seen, r, on);
      var rest := ClassifyAll(inp, members[..n], line, router, depth, seen);
      WalkNotesGuesses(inp, members[n], router, depth + 1, rest.seen, r, on);
      var last := Classify(inp, members[n], router, depth + 1, rest.seen);
      GuessesThrough(last.accounts, line, r, on);
      GuessesAppend(rest.accounts, Through(last.accounts, line), r, on);
    }
  }

  /** A note about an undefined middleware is there exactly when some account rests on that name alone. */
  lemma {:induction false} GuessesAreNoted(inp: Input, refs: seq<(string, string)>, ref: string, router: string)
    ensures Undefined(ref, router) in Dedupe(RefNotes(inp, refs)) <==> SomeGuess(RefAccounts(inp, refs), ref, router)
  {
    DedupeKeeps(RefNotes(inp, refs));
    if refs != [] {
      var n := |refs| - 1;
      GuessesAreNoted(inp, refs[..n], ref, router);
      DedupeKeeps(RefNotes(inp, refs[..n]));
      WalkNotesGuesses(inp, refs[n].1, refs[n].0, 0, {}, ref, router);
      GuessesAppend(RefAccounts(inp, refs[..n]), Classify(inp, refs[n].1, refs[n].0, 0, {}).accounts, ref, router);
    }
  }
}
