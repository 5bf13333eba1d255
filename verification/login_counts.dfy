/** What a run of password attempts counts (labview/internal/access/login.go, throttle.go), told by the attempts: how many
    wrong ones on a name its window has seen, and how each attempt is answered. */
module LoginCounts {
  import opened Options
  import opened Usernames
  import opened Lists
  import opened Throttling
  import opened Logins

  /** A live attempt with a wrong password on any case of the name. */
  predicate WrongTry(a: Try, key: string) { a.live && !a.right && ThrottleKey(a.user) == key }

  /** How many of those are among attempts `i` to `j`. */
  function Wrongs(tries: seq<Try>, key: string, i: nat, j: nat): nat
    requires i <= j <= |tries|
  {
    if i == j then 0 else Wrongs(tries, key, i, j - 1) + (if WrongTry(tries[j - 1], key) then 1 else 0)
  }

  function Min(a: int, b: int): int { if a < b then a else b }

  /** Attempt `i` is wrong and finds the name without an open window. */
  ghost predicate Opens(lim: Limits, ts: seq<Table>, tries: seq<Try>, key: string, i: nat) {
    && i < |tries| && i < |ts| && WrongTry(tries[i], key)
    && (key !in ts[i].entries || Expired(lim, ts[i].entries[key], tries[i].now))
  }

  /** From then up to `j` the name stays in the table and nothing on it comes after the window has closed. */
  ghost predicate StaysOpen(lim: Limits, ts: seq<Table>, tries: seq<Try>, key: string, i: nat, j: nat)
    requires i < j <= |tries| && j < |ts|
  {
    && (forall m :: i < m <= j ==> key in ts[m].entries)
    && forall m :: i < m < j && ThrottleKey(tries[m].user) == key ==> tries[m].now < tries[i].now + lim.window
  }

  // ---------------------------------------------------------------------------
  // The count
  // ---------------------------------------------------------------------------

  /** An attempt on another name leaves the entry as it is, unless it evicts it. */
  lemma OthersLeaveIt(lim: Limits, t: Table, a: Try, key: string)
    requires Sound(lim, t) && key in t.entries && ThrottleKey(a.user) != key && key in Judge(lim, t, a).0.entries
    ensures Judge(lim, t, a).0.entries[key] == t.entries[key]
  {
    EvictedIs(t);
  }

  /** One more attempt on the name, inside its window. */
  lemma OneMoreTry(lim: Limits, t: Table, a: Try, key: string)
    requires lim.max > 0 && Sound(lim, t) && key in t.entries && ThrottleKey(a.user) == key
    requires a.now < t.entries[key].first + lim.window && lim.window > 0 && key in Judge(lim, t, a).0.entries
    ensures var e, e' := t.entries[key], Judge(lim, t, a).0.entries[key];
      e'.first == e.first && e'.count == if WrongTry(a, key) then Min(e.count + 1, lim.max) else e.count
  {
  }

  lemma OneMoreCount(lim: Limits, t: Table, a: Try, key: string, first: int, n: nat)
    requires lim.max > 0 && lim.window > 0 && Sound(lim, t) && key in t.entries && key in Judge(lim, t, a).0.entries
    requires ThrottleKey(a.user) == key ==> a.now < first + lim.window
    requires t.entries[key].first == first && t.entries[key].count == Min(n, lim.max)
    ensures var e' := Judge(lim, t, a).0.entries[key];
      e'.first == first && e'.count == Min(n + (if WrongTry(a, key) then 1 else 0), lim.max)
  {
    if ThrottleKey(a.user) == key {
      OneMoreTry(lim, t, a, key);
    } else {
      OthersLeaveIt(lim, t, a, key);
    }
  }

  lemma {:induction false} SoundOnward(lim: Limits, ts: seq<Table>, tries: seq<Try>, i: nat)
    requires IsRun(lim, ts, tries) && Sound(lim, ts[0]) && i < |ts|
    ensures Sound(lim, ts[i])
  {
    if i > 0 {
      SoundOnward(lim, ts, tries, i - 1);
      JudgeKeepsSound(lim, ts[i - 1], tries[i - 1]);
    }
  }

  /** The entry of the name has its window's start and as many failures as the limit lets it count of `n`. */
  ghost predicate Counts(lim: Limits, t: Table, key: string, first: int, n: nat) {
    key in t.entries && t.entries[key].first == first && t.entries[key].count == Min(n, lim.max)
  }

  lemma CountGoesOn(lim: Limits, ts: seq<Table>, tries: seq<Try>, key: string, first: int, n: nat, j: nat)
    requires IsRun(lim, ts, tries) && Sound(lim, ts[0]) && lim.max > 0 && lim.window > 0 && j < |tries|
    requires Counts(lim, ts[j], key, first, n) && key in ts[j + 1].entries
    requires ThrottleKey(tries[j].user) == key ==> tries[j].now < first + lim.window
    ensures Counts(lim, ts[j + 1], key, first, n + (if WrongTry(tries[j], key) then 1 else 0))
  {
    SoundOnward(lim, ts, tries, j);
    OneMoreCount(lim, ts[j], tries[j], key, first, n);
  }

  lemma CountStarts(lim: Limits, ts: seq<Table>, tries: seq<Try>, key: string, i: nat)
    requires IsRun(lim, ts, tries) && lim.max > 0 && Opens(lim, ts, tries, key, i)
    ensures Counts(lim, ts[i + 1], key, tries[i].now, Wrongs(tries, key, i, i + 1))
  {
    OpeningCounts(lim, ts[i], tries[i], key);
    assert Wrongs(tries, key, i, i) == 0;
  }

  lemma StayedOpen(lim: Limits, ts: seq<Table>, tries: seq<Try>, key: string, i: nat, j: nat)
    requires i + 1 < j <= |tries| && j < |ts| && StaysOpen(lim, ts, tries, key, i, j)
    ensures StaysOpen(lim, ts, tries, key, i, j - 1) && key in ts[j].entries
    ensures ThrottleKey(tries[j - 1].user) == key ==> tries[j - 1].now < tries[i].now + lim.window
  {
  }

  lemma CountsOneMore(lim: Limits, ts: seq<Table>, tries: seq<Try>, key: string, i: nat, j: nat)
    requires IsRun(lim, ts, tries) && Sound(lim, ts[0]) && lim.max > 0 && lim.window > 0
    requires i + 1 < j <= |tries| && StaysOpen(lim, ts, tries, key, i, j)
    requires Counts(lim, ts[j - 1], key, tries[i].now, Wrongs(tries, key, i, j - 1))
    ensures Counts(lim, ts[j], key, tries[i].now, Wrongs(tries, key, i, j))
  {
    StayedOpen(lim, ts, tries, key, i, j);
    CountGoesOn(lim, ts, tries, key, tries[i].now, Wrongs(tries, key, i, j - 1), j - 1);
  }

  /** While its window is open and its entry is not evicted, the count of a name is the number of wrong attempts on any
      case of it since the window opened, as far as the limit. */
  lemma {:induction false} CountIsWrongs(lim: Limits, ts: seq<Table>, tries: seq<Try>, key: string, i: nat, j: nat)
    requires IsRun(lim, ts, tries) && Sound(lim, ts[0]) && lim.max > 0 && lim.window > 0
    requires Opens(lim, ts, tries, key, i) && i < j <= |tries| && StaysOpen(lim, ts, tries, key, i, j)
    ensures Counts(lim, ts[j], key, tries[i].now, Wrongs(tries, key, i, j))
  {
    if j == i + 1 {
      CountStarts(lim, ts, tries, key, i);
    } else {
      StayedOpen(lim, ts, tries, key, i, j);
      CountIsWrongs(lim, ts, tries, key, i, j - 1);
      CountsOneMore(lim, ts, tries, key, i, j);
    }
  }

  lemma OpeningCounts(lim: Limits, t: Table, a: Try, key: string)
    requires lim.max > 0 && WrongTry(a, key) && (key !in t.entries || Expired(lim, t.entries[key], a.now))
    ensures var (t', l) := Judge(lim, t, a);
      && key in t'.entries && t'.entries[key].first == a.now && t'.entries[key].count == 1
      && (if lim.max == 1 then l.status == 429 && l.reason == Throttled else l.status == 401 && l.reason == Credentials)
  {
  }

  // ---------------------------------------------------------------------------
  // The answers
  // ---------------------------------------------------------------------------

  /** How an attempt on a name is answered with `n` wrong ones before it in its window. */
  ghost predicate Answered(lim: Limits, a: Try, n: nat, l: Login) {
    if !a.live then l.status == 503 && l.reason == MethodUnavailable
    else if n >= lim.max then l.status == 429 && l.reason == Throttled
    else if !a.right then
      if n + 1 == lim.max then l.status == 429 && l.reason == Throttled else l.status == 401 && l.reason == Credentials
    else if a.random.None? then l.status == 503 && l.reason == MethodUnavailable
    else l.status == 200 && l.reason == NoReason
  }

  lemma AnswerIs(lim: Limits, t: Table, a: Try, key: string, n: nat)
    requires lim.max > 0 && lim.window > 0 && Sound(lim, t) && key in t.entries && ThrottleKey(a.user) == key
    requires a.now < t.entries[key].first + lim.window && t.entries[key].count == Min(n, lim.max)
    ensures var (t', l) := Judge(lim, t, a);
      && Answered(lim, a, n, l) && l.username == Username(a.user)
      && (l.status == 429 ==> LockedOut(lim, t', key, a.now))
      && (l.status == 200 ==> key !in t'.entries && key !in t'.order)
      && (l.status == 503 || (l.status == 429 && n >= lim.max) ==> t' == t)
  {
    WithoutIs(t.order, key);
  }

  /** Every attempt on a name inside its window: the first wrong ones are answered 401 and the last one the limit allows
      429, which locks the name; from then on every live one is; a right one before that is answered 200 and forgets the
      name; and nothing is judged of one that is not live. */
  lemma EveryTryIsAnswered(lim: Limits, ts: seq<Table>, tries: seq<Try>, key: string, i: nat, j: nat)
    requires IsRun(lim, ts, tries) && Sound(lim, ts[0]) && lim.max > 0 && lim.window > 0
    requires Opens(lim, ts, tries, key, i) && i < j < |tries| && StaysOpen(lim, ts, tries, key, i, j)
    requires ThrottleKey(tries[j].user) == key && tries[j].now < tries[i].now + lim.window
    ensures var l, t' := Judge(lim, ts[j], tries[j]).1, ts[j + 1];
      && Answered(lim, tries[j], Wrongs(tries, key, i, j), l)
      && (l.status == 429 ==> LockedOut(lim, t', key, tries[j].now))
      && (l.status == 200 ==> key !in t'.entries && key !in t'.order)
  {
    CountIsWrongs(lim, ts, tries, key, i, j);
    SoundOnward(lim, ts, tries, j);
    AnswerIs(lim, ts[j], tries[j], key, Wrongs(tries, key, i, j));
  }

  /** The attempt that opens a window is answered 401, or 429 when one is all the limit allows. */
  lemma OpeningIsAnswered(lim: Limits, ts: seq<Table>, tries: seq<Try>, key: string, i: nat)
    requires IsRun(lim, ts, tries) && lim.max > 0 && Opens(lim, ts, tries, key, i)
    ensures Answered(lim, tries[i], 0, Judge(lim, ts[i], tries[i]).1)
  {
    OpeningCounts(lim, ts[i], tries[i], key);
  }

  /** A right attempt on a name without an open window is answered 200 and leaves no entry. */
  lemma RightIsForgiven(lim: Limits, t: Table, a: Try)
    requires Sound(lim, t) && a.live && a.right && a.random.Some?
    requires ThrottleKey(a.user) !in t.entries || Expired(lim, t.entries[ThrottleKey(a.user)], a.now)
    ensures Judge(lim, t, a).1.status == 200 && ThrottleKey(a.user) !in Judge(lim, t, a).0.entries
  {
  }

  /** Without a limit nothing is counted and a wrong password is always answered 401. */
  lemma NoLimitNoLock(lim: Limits, t: Table, a: Try)
    requires lim.max <= 0 && a.live && !a.right
    ensures Judge(lim, t, a).0 == t && Judge(lim, t, a).1.status == 401 && Judge(lim, t, a).1.reason == Credentials
  {
  }

  // ---------------------------------------------------------------------------
  // How long an entry stays
  // ---------------------------------------------------------------------------

  ghost predicate HasPlace(t: Table, key: string, n: int) { key in t.entries && Stands(t.order, t.entries, key, t.entries[key], n) }

  lemma PlaceAfterTry(lim: Limits, t: Table, a: Try, key: string, n: int)
    requires Sound(lim, t) && HasPlace(t, key, n)
    requires NewKey(t, Judge(lim, t, a).0) ==> n < MAX_THROTTLE_KEYS - 1
    requires ThrottleKey(a.user) == key ==> Judge(lim, t, a).1.status != 200
    ensures var t' := Judge(lim, t, a).0; HasPlace(t', key, if NewKey(t, t') then n + 1 else n)
  {
    var t' := Judge(lim, t, a).0;
    if ThrottleKey(a.user) != key || LockedOut(lim, t, key, a.now) {
      OneTry(lim, t, a, key, t.entries[key], n);
    } else {
      SplitKeys(t);
      assert t'.order == t.order;
      var i :| 0 <= i < |t.order| && t.order[i] == key && |t.order| - 1 - i <= n;
      assert t'.order[i] == key;
    }
  }

  /** From a place with `n` keys behind it, an entry stays until a success on its name or until the keys behind it and
      those inserted since fill the table. */
  lemma {:induction false} PlaceIsKept(lim: Limits, ts: seq<Table>, tries: seq<Try>, key: string, n: int)
    requires IsRun(lim, ts, tries) && Sound(lim, ts[0]) && HasPlace(ts[0], key, n)
    requires n + Inserted(ts) < MAX_THROTTLE_KEYS
    requires forall m :: 0 <= m < |tries| && ThrottleKey(tries[m].user) == key ==> Judge(lim, ts[m], tries[m]).1.status != 200
    ensures HasPlace(ts[|tries|], key, n + Inserted(ts))
  {
    if tries != [] {
      var m := |tries| - 1;
      assert ts[..m + 1] == ts[..|ts| - 1];
      PlaceIsKept(lim, ts[..m + 1], tries[..m], key, n);
      SoundOnward(lim, ts, tries, m);
      PlaceAfterTry(lim, ts[m], tries[m], key, n + Inserted(ts[..m + 1]));
    }
  }
}
