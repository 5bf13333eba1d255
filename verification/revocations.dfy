/** The bounded revocation set of labview/internal/access/session.go: pruned by expiry on every write and cut to a
    cap, earliest expiry first. Times are integers in one unit. */
module Revocations {
  import opened Ordering

  const MAX_REVOCATIONS: nat := 10000

  type Book = map<string, int>

  datatype Entry = Entry(jti: string, exp: int)

  /** The order entries are given up in. */
  predicate Before(a: Entry, b: Entry) {
    a.exp < b.exp || (a.exp == b.exp && StrLess(a.jti, b.jti))
  }

  function Live(m: Book, now: int): Book {
    map j | j in m && now < m[j] :: m[j]
  }

  /** `held` is the last `cap` entries of `all` in the order of Before, or all of them. */
  ghost predicate IsTop(cap: nat, held: Book, all: Book) {
    && held.Keys <= all.Keys && (forall j :: j in held ==> held[j] == all[j])
    && |held| == (if |all| < cap then |all| else cap)
    && forall j, k :: j in held && k in all && k !in held ==> Before(Entry(k, all[k]), Entry(j, all[j]))
  }

  // ---------------------------------------------------------------------------
  // The order
  // ---------------------------------------------------------------------------

  lemma BeforeTotal(a: Entry, b: Entry)
    ensures !(Before(a, b) && Before(b, a))
    ensures a != b ==> Before(a, b) || Before(b, a)
    ensures a == b ==> !Before(a, b)
  {
    StrLessTotal(a.jti, b.jti);
  }

  lemma BeforeTransitive(a: Entry, b: Entry, c: Entry)
    requires Before(a, b) && Before(b, c)
    ensures Before(a, c)
  {
    if a.exp == b.exp == c.exp {
      StrLessTransitive(a.jti, b.jti, c.jti);
    }
  }

  lemma BeforeIsAnOrder()
    ensures StrictWeak(Before)
  {
    forall a: Entry, b: Entry ensures !(Before(a, b) && Before(b, a)) && (a != b ==> Before(a, b) || Before(b, a)) && !Before(a, a) {
      BeforeTotal(a, b);
      BeforeTotal(a, a);
    }
    forall a: Entry, b: Entry, c: Entry | Before(a, b) && Before(b, c) ensures Before(a, c) {
      BeforeTransitive(a, b, c);
    }
  }

  /** There is only one such set, so IsTop pins the whole map. */
  lemma TopIsUnique(cap: nat, a: Book, b: Book, all: Book)
    requires IsTop(cap, a, all) && IsTop(cap, b, all)
    ensures a == b
  {
    if a.Keys != b.Keys {
      SameSizeMeansBothWays(a.Keys, b.Keys);
      var j :| j in a.Keys && j !in b.Keys;
      var k :| k in b.Keys && k !in a.Keys;
      BeforeTotal(Entry(k, all[k]), Entry(j, all[j]));
    }
  }

  lemma SameSizeMeansBothWays<T>(a: set<T>, b: set<T>)
    requires |a| == |b| && a != b
    ensures (exists x :: x in a && x !in b) && (exists x :: x in b && x !in a)
  {
    SubsetIsEqual(a, b);
    SubsetIsEqual(b, a);
  }

  lemma SubsetIsEqual<T>(a: set<T>, b: set<T>)
    ensures a <= b && |a| == |b| ==> a == b
  {
    if a <= b && |a| == |b| {
      assert |b - a| == |b| - |a|;
    }
  }

  lemma SubsetIsSmaller<T>(a: set<T>, b: set<T>)
    requires a <= b
    ensures |a| <= |b|
  {
    assert b == a + (b - a);
  }

  /** The entries given up after `j`'s. */
  ghost function After(all: Book, j: string): set<string>
    requires j in all
  {
    set k | k in all && Before(Entry(j, all[j]), Entry(k, all[k]))
  }

  lemma FewerAfter(all: Book, j: string)
    requires j in all
    ensures |After(all, j)| < |all|
  {
    BeforeTotal(Entry(j, all[j]), Entry(j, all[j]));
    assert j !in After(all, j);
    SubsetIsSmaller(After(all, j) + {j}, all.Keys);
  }

  /** Which entries the top is made of: those with fewer than `cap` entries to be given up after them. */
  lemma TopHas(cap: nat, held: Book, all: Book, j: string)
    requires IsTop(cap, held, all) && j in all
    ensures j in held <==> |After(all, j)| < cap
  {
    var after := After(all, j);
    if j in held {
      forall k | k in after ensures k in held.Keys - {j} {
        BeforeTotal(Entry(j, all[j]), Entry(k, all[k]));
      }
      SubsetIsSmaller(after, held.Keys - {j});
    } else {
      if |all| <= cap {
        SubsetIsEqual(held.Keys, all.Keys);
      }
      assert held.Keys <= after;
      SubsetIsSmaller(held.Keys, after);
    }
  }

  // ---------------------------------------------------------------------------
  // The object
  // ---------------------------------------------------------------------------

  class RevocationSet {
    var at: Book

    constructor ()
      ensures at == map[]
    {
      at := map[];
    }

    method Has(jti: string) returns (ok: bool)
      ensures ok == (jti in at)
    {
      ok := jti in at;
    }

    /** Prune what has expired, record the identifier, and cut down to the cap. */
    method Add(jti: string, expiry: int, now: int)
      modifies this
      ensures jti == "" ==> at == old(at)
      ensures jti != "" && |old(at)| <= MAX_REVOCATIONS ==> IsTop(MAX_REVOCATIONS, at, Live(old(at), now)[jti := expiry])
    {
      if jti == "" {
        return;
      }
      var rest := at.Keys;
      while rest != {}
        invariant rest <= at.Keys <= old(at).Keys
        invariant forall j :: j in at ==> at[j] == old(at)[j]
        invariant forall j :: j in old(at) && j !in rest ==> (j in at <==> now < old(at)[j])
        decreases rest
      {
        var held :| held in rest;
        rest := rest - {held};
        if now >= at[held] {
          at := at - {held};
        }
      }
      assert at == Live(old(at), now);
      ghost var live := at;
      at := at[jti := expiry];
      assert at.Keys == live.Keys + {jti};
      SubsetIsSmaller(live.Keys, old(at).Keys);
      if |at| > MAX_REVOCATIONS {
        Evict();
      }
    }

    /** Delete in the order of Before until the cap is met. */
    method Evict()
      requires |at| > MAX_REVOCATIONS
      modifies this
      ensures IsTop(MAX_REVOCATIONS, at, old(at))
    {
      var listed := Entries(at);
      var all := Sort(Before, listed);
      SortedEntries(listed, at);
      var i := 0;
      while i < |all| && |at| > MAX_REVOCATIONS
        invariant 0 <= i <= |all| == |old(at)|
        invariant at.Keys <= old(at).Keys && forall j :: j in at ==> at[j] == old(at)[j]
        invariant forall k :: 0 <= k < |all| ==> (all[k].jti in at <==> i <= k)
        invariant |at| == |all| - i >= MAX_REVOCATIONS
      {
        assert (at - {all[i].jti}).Keys == at.Keys - {all[i].jti};
        at := at - {all[i].jti};
        i := i + 1;
      }
      TailIsTop(all, old(at), at, i);
    }
  }

  /** Dropping the front of the sorted listing leaves the top. */
  lemma TailIsTop(all: seq<Entry>, m: Book, kept: Book, i: nat)
    requires Lists(all, m) && (forall a, b :: 0 <= a < b < |all| ==> Before(all[a], all[b])) && i <= |all|
    requires kept.Keys <= m.Keys && forall j :: j in kept ==> kept[j] == m[j]
    requires (forall k :: 0 <= k < |all| ==> (all[k].jti in kept <==> i <= k)) && |kept| == |all| - i == MAX_REVOCATIONS
    ensures IsTop(MAX_REVOCATIONS, kept, m)
  {
    forall j, k | j in kept && k in m && k !in kept ensures Before(Entry(k, m[k]), Entry(j, m[j])) {
      assert Entry(k, m[k]) in all && Entry(j, m[j]) in all;
      var a :| 0 <= a < |all| && all[a] == Entry(k, m[k]);
      var b :| 0 <= b < |all| && all[b] == Entry(j, m[j]);
      assert a < i <= b;
    }
  }

  ghost predicate Lists(all: seq<Entry>, m: Book) {
    && (forall e :: e in all <==> e.jti in m && m[e.jti] == e.exp)
    && |all| == |m|
    && forall i, j :: 0 <= i < j < |all| ==> all[i].jti != all[j].jti
  }

  /** The map as a list, in whatever order the map gives. */
  method Entries(m: Book) returns (all: seq<Entry>)
    ensures Lists(all, m)
  {
    all := [];
    var rest := m.Keys;
    while rest != {}
      invariant rest <= m.Keys
      invariant forall e :: e in all <==> e.jti in m && e.jti !in rest && m[e.jti] == e.exp
      invariant |all| + |rest| == |m|
      invariant forall i, j :: 0 <= i < j < |all| ==> all[i].jti != all[j].jti
      decreases rest
    {
      var j :| j in rest;
      assert forall i :: 0 <= i < |all| ==> all[i] in all;
      rest := rest - {j};
      all := all + [Entry(j, m[j])];
    }
  }

  lemma SortedEntries(listed: seq<Entry>, m: Book)
    requires Lists(listed, m)
    ensures Lists(Sort(Before, listed), m)
    ensures forall i, j :: 0 <= i < j < |m| ==> Before(Sort(Before, listed)[i], Sort(Before, listed)[j])
  {
    var all := Sort(Before, listed);
    BeforeIsAnOrder();
    SortSorts(Before, listed);
    SortedIsDistinct(listed, all);
    forall i, j | 0 <= i < j < |m| ensures Before(all[i], all[j]) {
      BeforeTotal(all[i], all[j]);
      assert !Before(all[j], all[i]);
    }
  }

  lemma SortedIsDistinct(listed: seq<Entry>, all: seq<Entry>)
    requires multiset(all) == multiset(listed)
    requires forall i, j :: 0 <= i < j < |listed| ==> listed[i].jti != listed[j].jti
    ensures |all| == |listed| && forall i, j :: 0 <= i < j < |all| ==> all[i].jti != all[j].jti
  {
    assert |multiset(all)| == |multiset(listed)|;
    forall i, j | 0 <= i < j < |all| ensures all[i].jti != all[j].jti {
      if all[i].jti == all[j].jti {
        assert all[i] in multiset(listed) && all[j] in multiset(listed);
        assert all[i] in listed && all[j] in listed;
        assert all[i] == all[j];
        TwiceInSeq(all, i, j);
        OnceInSeq(listed, all[i]);
        assert false;
      }
    }
  }

  lemma TwiceInSeq<T>(s: seq<T>, i: nat, j: nat)
    requires i < j < |s| && s[i] == s[j]
    ensures multiset(s)[s[i]] >= 2
  {
    assert s == s[..j] + [s[j]] + s[j + 1..];
    assert s[i] in s[..j];
  }

  lemma {:induction false} OnceInSeq(s: seq<Entry>, x: Entry)
    requires forall i, j :: 0 <= i < j < |s| ==> s[i].jti != s[j].jti
    ensures multiset(s)[x] <= 1
  {
    if s != [] {
      assert s == [s[0]] + s[1..];
      OnceInSeq(s[1..], x);
      if x == s[0] {
        assert x !in s[1..];
      }
    }
  }

  // ---------------------------------------------------------------------------
  // Against an unbounded history
  // ---------------------------------------------------------------------------

  /** Pruning by a later time keeps a top set a top set: what was given up expires no later than what was kept. */
  lemma PruneKeepsTop(cap: nat, held: Book, all: Book, now: int)
    requires IsTop(cap, held, all)
    ensures IsTop(cap, Live(held, now), Live(all, now))
    ensures |Live(held, now)| < cap ==> Live(held, now) == Live(all, now)
  {
    var p, l := Live(held, now), Live(all, now);
    if |held| < cap {
      SubsetIsEqual(held.Keys, all.Keys);
      assert held == all;
    } else if exists j :: j in held && held[j] <= now {
      assert forall k :: k in all && k !in held ==> all[k] <= now;
      assert p == l;
    } else {
      assert p == held;
      SubsetIsSmaller(p.Keys, l.Keys);
    }
    SubsetIsSmaller(p.Keys, held.Keys);
  }

  /** Cutting a top set plus one entry gives the top of everything plus that entry. */
  lemma CutKeepsTop(cap: nat, held: Book, all: Book, jti: string, exp: int, held': Book)
    requires IsTop(cap, held, all) && (|held| < cap ==> held == all) && cap > 0
    requires jti in all ==> all[jti] == exp
    requires IsTop(cap, held', held[jti := exp])
    ensures IsTop(cap, held', all[jti := exp])
  {
    if held != all {
      var more := all[jti := exp];
      CutSize(cap, held, all, jti, exp, held');
      forall j, k | j in held' && k in more && k !in held'
        ensures Before(Entry(k, more[k]), Entry(j, more[j]))
      {
        CutOrder(cap, held, all, jti, exp, held', j, k);
      }
    }
  }

  lemma CutSize(cap: nat, held: Book, all: Book, jti: string, exp: int, held': Book)
    requires IsTop(cap, held, all) && |held| == cap && (jti in all ==> all[jti] == exp)
    requires IsTop(cap, held', held[jti := exp])
    ensures |held'| == cap && cap <= |all[jti := exp]| && held'.Keys <= all[jti := exp].Keys
    ensures forall j :: j in held' ==> held'[j] == all[jti := exp][j]
  {
    OneMoreIsNoSmaller(held, jti, exp);
    OneMoreStaysWithin(held, all, jti, exp, held[jti := exp], all[jti := exp]);
    SubsetIsSmaller(held[jti := exp].Keys, all[jti := exp].Keys);
  }

  lemma OneMoreIsNoSmaller(held: Book, jti: string, exp: int)
    ensures |held| <= |held[jti := exp]|
  {
    assert held[jti := exp].Keys == held.Keys + {jti};
    SubsetIsSmaller(held.Keys, held[jti := exp].Keys);
  }

  lemma OneMoreStaysWithin(held: Book, all: Book, jti: string, exp: int, q: Book, more: Book)
    requires held.Keys <= all.Keys && q == held[jti := exp] && more == all[jti := exp]
    requires forall j :: j in held ==> held[j] == all[j]
    ensures q.Keys <= more.Keys && forall j :: j in q ==> q[j] == more[j]
  {
  }

  lemma CutOrder(cap: nat, held: Book, all: Book, jti: string, exp: int, held': Book, j: string, k: string)
    requires IsTop(cap, held, all) && |held| == cap && (jti in all ==> all[jti] == exp)
    requires IsTop(cap, held', held[jti := exp])
    requires j in held' && k in all[jti := exp] && k !in held'
    ensures Before(Entry(k, all[jti := exp][k]), Entry(j, all[jti := exp][j]))
  {
    if k in held[jti := exp] {
      assert Before(Entry(k, held[jti := exp][k]), Entry(j, held[jti := exp][j]));
    } else if j in held {
      assert Before(Entry(k, all[k]), Entry(j, all[j]));
    } else {
      var d := Displaced(cap, held, jti, exp, held');
      assert Before(Entry(k, all[k]), Entry(d, all[d]));
      BeforeTransitive(Entry(k, all[k]), Entry(d, held[d]), Entry(jti, exp));
    }
  }

  /** When the new entry stays in a full set, some other entry was given up for it. */
  lemma Displaced(cap: nat, held: Book, jti: string, exp: int, held': Book) returns (d: string)
    requires |held| == cap && jti !in held && IsTop(cap, held', held[jti := exp]) && jti in held'
    ensures d in held && d !in held' && Before(Entry(d, held[d]), Entry(jti, exp))
  {
    var q := held[jti := exp];
    assert q.Keys == held.Keys + {jti};
    assert |q.Keys| == cap + 1 && |held'.Keys| == cap;
    if q.Keys <= held'.Keys {
      SubsetIsSmaller(q.Keys, held'.Keys);
    }
    d :| d in q.Keys && d !in held'.Keys;
    assert Before(Entry(d, q[d]), Entry(jti, q[jti]));
  }

  datatype Write = Write(jti: string, exp: int, now: int)

  /** Everything ever revoked. */
  function History(ws: seq<Write>): Book {
    if ws == [] then map[] else
      var w := ws[|ws| - 1];
      if w.jti == "" then History(ws[..|ws| - 1]) else History(ws[..|ws| - 1])[w.jti := w.exp]
  }

  /** The states one RevocationSet goes through under a run of `Add` calls. */
  ghost predicate Held(ws: seq<Write>, held: seq<Book>) {
    && |held| == |ws| + 1 && held[0] == map[]
    && forall i :: 0 <= i < |ws| ==> AddStep(held[i], ws[i], held[i + 1])
  }

  /** What the contract of `Add` says about one call. */
  ghost predicate AddStep(held: Book, w: Write, held': Book) {
    if w.jti == "" then held' == held else IsTop(MAX_REVOCATIONS, held', Live(held, w.now)[w.jti := w.exp])
  }

  /** The clock does not go back, nothing already expired is revoked, and an identifier always has one expiry. */
  ghost predicate Orderly(ws: seq<Write>) {
    && (forall i, j :: 0 <= i < j < |ws| ==> ws[i].now <= ws[j].now)
    && (forall i :: 0 <= i < |ws| && ws[i].jti != "" ==> ws[i].now < ws[i].exp)
    && (forall i, j :: 0 <= i < |ws| && 0 <= j < |ws| && ws[i].jti == ws[j].jti != "" ==> ws[i].exp == ws[j].exp)
  }

  lemma {:induction false} HistoryHolds(ws: seq<Write>, j: string)
    ensures j in History(ws) ==> exists i :: 0 <= i < |ws| && ws[i].jti == j && ws[i].exp == History(ws)[j]
    ensures (exists i :: 0 <= i < |ws| && ws[i].jti == j && j != "") ==> j in History(ws)
  {
    if ws != [] {
      var n := |ws| - 1;
      HistoryHolds(ws[..n], j);
      forall i | 0 <= i < |ws| && ws[i].jti == j && j != "" ensures j in History(ws) {
        if i < n {
          assert ws[..n][i].jti == j;
        }
      }
    }
  }

  /** After any orderly run, the bounded set is exactly the top MAX_REVOCATIONS of the identifiers ever revoked
      that have not expired, at the last write and at any later time. */
  lemma {:induction false} BoundedRefinesHistory(ws: seq<Write>, held: seq<Book>, now: int)
    requires Held(ws, held) && Orderly(ws)
    requires forall i :: 0 <= i < |ws| ==> ws[i].now <= now
    ensures IsTop(MAX_REVOCATIONS, Live(held[|ws|], now), Live(History(ws), now))
    ensures |Live(held[|ws|], now)| < MAX_REVOCATIONS ==> Live(held[|ws|], now) == Live(History(ws), now)
  {
    if ws != [] {
      var n := |ws| - 1;
      var w, past := ws[n], ws[..n];
      PastHeld(ws, held);
      BoundedRefinesHistory(past, held[..n + 1], w.now);
      OneExpiryEach(ws);
      OneMoreWrite(held[n], History(past), w, held[n + 1], now);
    }
  }

  lemma PastHeld(ws: seq<Write>, held: seq<Book>)
    requires Held(ws, held) && Orderly(ws) && ws != []
    ensures var n := |ws| - 1; AddStep(held[n], ws[n], held[n + 1]) && Held(ws[..n], held[..n + 1]) && Orderly(ws[..n])
  {
  }

  lemma OneExpiryEach(ws: seq<Write>)
    requires Orderly(ws) && ws != []
    ensures var w, all := ws[|ws| - 1], History(ws[..|ws| - 1]); w.jti != "" && w.jti in all ==> all[w.jti] == w.exp
  {
    HistoryHolds(ws[..|ws| - 1], ws[|ws| - 1].jti);
  }

  lemma OneMoreWrite(held: Book, all: Book, w: Write, held': Book, now: int)
    requires IsTop(MAX_REVOCATIONS, Live(held, w.now), Live(all, w.now))
    requires |Live(held, w.now)| < MAX_REVOCATIONS ==> Live(held, w.now) == Live(all, w.now)
    requires AddStep(held, w, held') && w.now <= now
    requires w.jti != "" ==> w.now < w.exp && (w.jti in all ==> all[w.jti] == w.exp)
    ensures var all' := if w.jti == "" then all else all[w.jti := w.exp];
      && IsTop(MAX_REVOCATIONS, Live(held', now), Live(all', now))
      && (|Live(held', now)| < MAX_REVOCATIONS ==> Live(held', now) == Live(all', now))
  {
    if w.jti == "" {
      PruneKeepsTop(MAX_REVOCATIONS, Live(held, w.now), Live(all, w.now), now);
      LiveTwice(held, w.now, now);
      LiveTwice(all, w.now, now);
    } else {
      CutKeepsTop(MAX_REVOCATIONS, Live(held, w.now), Live(all, w.now), w.jti, w.exp, held');
      LiveWithOneMore(all, w.jti, w.exp, w.now);
      PruneKeepsTop(MAX_REVOCATIONS, held', Live(all[w.jti := w.exp], w.now), now);
      LiveTwice(all[w.jti := w.exp], w.now, now);
    }
  }

  lemma LiveTwice(m: Book, t: int, now: int)
    requires t <= now
    ensures Live(Live(m, t), now) == Live(m, now)
  {
  }

  lemma LiveWithOneMore(m: Book, jti: string, exp: int, now: int)
    requires now < exp
    ensures Live(m[jti := exp], now) == Live(m, now)[jti := exp]
  {
  }
}
