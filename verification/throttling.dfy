/** The login throttle of labview/internal/access/throttle.go: failures counted per case-folded name, in a table
    bounded by first-in-first-out eviction. Times and durations are nanoseconds. */
module Throttling {
  import opened Options
  import opened Usernames
  import opened Lists

  const MAX_THROTTLE_KEYS: nat := 4096
  const SECOND := 1_000_000_000

  datatype Limits = Limits(max: int, window: int)

  datatype Attempts = Attempts(count: nat, first: int, last: int)

  datatype Table = Table(entries: map<string, Attempts>, order: seq<string>)

  datatype Verdict = Verdict(locked: bool, retryAfter: int)

  const OPEN := Verdict(false, 0)

  predicate Expired(lim: Limits, e: Attempts, now: int) {
    lim.window <= 0 || now - e.first >= lim.window
  }

  /** `Duration.Round(time.Second)` of what is left of the window, and never less than a second. */
  function RetryAfter(lim: Limits, e: Attempts, now: int): int {
    var left := lim.window - (now - e.first);
    var d := if left < SECOND then SECOND else left;
    if d % SECOND * 2 < SECOND then d - d % SECOND else d + SECOND - d % SECOND
  }

  function VerdictOn(lim: Limits, e: Attempts, now: int): Verdict {
    if e.count < lim.max then OPEN else Verdict(true, RetryAfter(lim, e, now))
  }

  function Allowed(lim: Limits, t: Table, user: string, now: int): Verdict {
    var key := ThrottleKey(user);
    if lim.max <= 0 || key !in t.entries || Expired(lim, t.entries[key], now) then OPEN
    else VerdictOn(lim, t.entries[key], now)
  }

  /** `evict`: drop from the front while the table is full. */
  function Evicted(t: Table): Table
    decreases |t.order|
  {
    if |t.entries| >= MAX_THROTTLE_KEYS && |t.order| > 0
    then Evicted(Table(t.entries - {t.order[0]}, t.order[1..]))
    else t
  }

  /** The entry a failure lands on: a new one, a window reopened in place, or the one that is open. */
  function Counted(lim: Limits, t: Table, key: string, now: int): Attempts {
    if key !in t.entries || Expired(lim, t.entries[key], now) then Attempts(1, now, now)
    else Attempts(t.entries[key].count + 1, t.entries[key].first, now)
  }

  function AfterFailure(lim: Limits, t: Table, user: string, now: int): Table {
    var key := ThrottleKey(user);
    if lim.max <= 0 then t
    else
      var e := Counted(lim, t, key, now);
      if key in t.entries then Table(t.entries[key := e], t.order)
      else var room := Evicted(t); Table(room.entries[key := e], room.order + [key])
  }

  function AfterSuccess(t: Table, user: string): Table {
    var key := ThrottleKey(user);
    if key !in t.entries then t else Table(t.entries - {key}, Without(t.order, key))
  }

  /** `order` lists the keys of `entries`, each once, and there are never more than the cap. */
  ghost predicate Valid(t: Table) {
    ListsKeys(t.order, t.entries) && |t.order| <= MAX_THROTTLE_KEYS
  }

  class Throttle {
    const lim: Limits
    var entries: map<string, Attempts>
    var order: seq<string>

    function State(): Table
      reads this
    {
      Table(entries, order)
    }

    constructor (max: int, window: int)
      ensures lim == Limits(max, window) && State() == Table(map[], []) && Valid(State())
    {
      lim := Limits(max, window);
      entries, order := map[], [];
    }

    method Allow(user: string, now: int) returns (v: Verdict)
      ensures v == Allowed(lim, State(), user, now)
    {
      if lim.max <= 0 {
        return OPEN;
      }
      var key := ThrottleKey(user);
      if key !in entries || Expired(lim, entries[key], now) {
        return OPEN;
      }
      if entries[key].count < lim.max {
        return OPEN;
      }
      v := Verdict(true, RetryAfter(lim, entries[key], now));
    }

    method Failed(user: string, now: int) returns (v: Verdict)
      modifies this
      ensures State() == AfterFailure(lim, old(State()), user, now)
      ensures v == if lim.max <= 0 then OPEN else VerdictOn(lim, Counted(lim, old(State()), ThrottleKey(user), now), now)
    {
      if lim.max <= 0 {
        return OPEN;
      }
      var key := ThrottleKey(user);
      var e: Attempts;
      if key !in entries {
        Evict();
        e := Attempts(0, now, now);
        order := order + [key];
      } else if Expired(lim, entries[key], now) {
        e := entries[key].(count := 0, first := now);
      } else {
        e := entries[key];
      }
      e := e.(count := e.count + 1, last := now);
      entries := entries[key := e];
      v := VerdictOn(lim, e, now);
    }

    method Evict()
      modifies this
      ensures State() == Evicted(old(State()))
    {
      while |entries| >= MAX_THROTTLE_KEYS && |order| > 0
        invariant Evicted(State()) == Evicted(old(State()))
        decreases |order|
      {
        entries, order := entries - {order[0]}, order[1..];
      }
    }

    method Succeeded(user: string)
      modifies this
      ensures State() == AfterSuccess(old(State()), user)
    {
      var key := ThrottleKey(user);
      if key !in entries {
        return;
      }
      entries := entries - {key};
      var i := 0;
      while i < |order|
        invariant 0 <= i <= |order| && order == old(order) && entries == old(entries) - {key}
        invariant Without(order, key) == order[..i] + Without(order[i..], key)
      {
        WithoutAt(order, key, i);
        if order[i] == key {
          order := order[..i] + order[i + 1..];
          return;
        }
        i := i + 1;
      }
      assert order[i..] == [] && order[..i] + [] == order;
    }
  }

  // ---------------------------------------------------------------------------
  // The table
  // ---------------------------------------------------------------------------

  /** In a valid table, making room drops the oldest key, and only when the table is full. */
  lemma EvictedIs(t: Table)
    requires Valid(t)
    ensures Valid(Evicted(t)) && |Evicted(t).entries| < MAX_THROTTLE_KEYS
    ensures Evicted(t) == if |t.order| < MAX_THROTTLE_KEYS then t else Table(t.entries - {t.order[0]}, t.order[1..])
  {
    if |t.order| == MAX_THROTTLE_KEYS {
      ListsAfterDrop(t.order, t.entries);
      var t' := Table(t.entries - {t.order[0]}, t.order[1..]);
      assert Evicted(t) == Evicted(t');
    }
  }

  lemma FailureKeepsValid(lim: Limits, t: Table, user: string, now: int)
    requires Valid(t)
    ensures Valid(AfterFailure(lim, t, user, now))
  {
    var key := ThrottleKey(user);
    if lim.max > 0 {
      var e := Counted(lim, t, key, now);
      if key in t.entries {
        ListsAfterReplace(t.order, t.entries, key, e);
      } else {
        EvictedIs(t);
        ListsAfterAppend(Evicted(t).order, Evicted(t).entries, key, e);
      }
    }
  }

  lemma SuccessKeepsValid(t: Table, user: string)
    requires Valid(t)
    ensures Valid(AfterSuccess(t, user))
  {
    if ThrottleKey(user) in t.entries {
      ListsAfterWithout(t.order, t.entries, ThrottleKey(user));
    }
  }

  /** A retry-after is a whole number of seconds within half a second of what is left, and it is long enough to wait
      out the lock exactly when what is left is under a second, whole, or rounds up. */
  lemma RetryAfterIsNearest(lim: Limits, e: Attempts, now: int)
    ensures var left, r := lim.window - (now - e.first), RetryAfter(lim, e, now);
      && r >= SECOND && r % SECOND == 0
      && (left >= SECOND ==> -SECOND <= 2 * (r - left) <= SECOND)
      && (r >= left <==> left < SECOND || left % SECOND == 0 || left % SECOND * 2 >= SECOND)
  {
  }

  /** The comment says rounded up. With 1.4 seconds of a ten-second window left the answer is one second, and a name
      that waits exactly that long is still locked. */
  lemma RetryAfterCanFallShort(lim: Limits, t: Table, user: string)
    requires lim.max > 0 && lim.window == 10 * SECOND
    requires ThrottleKey(user) in t.entries && t.entries[ThrottleKey(user)].first == 0 && t.entries[ThrottleKey(user)].count >= lim.max
    ensures var now := 8 * SECOND + 600_000_000;
      Allowed(lim, t, user, now) == Verdict(true, SECOND) && Allowed(lim, t, user, now + SECOND).locked
  {
    var now := 8 * SECOND + 600_000_000;
    assert RetryAfter(lim, t.entries[ThrottleKey(user)], now) == SECOND;
  }

  // ---------------------------------------------------------------------------
  // How long a lock lasts
  // ---------------------------------------------------------------------------

  /** A failure now would reach the limit: it opens a window the limit fits in, or completes one already open. */
  predicate Triggers(lim: Limits, t: Table, key: string, now: int) {
    lim.max > 0 && lim.window > 0 &&
    if key !in t.entries || Expired(lim, t.entries[key], now) then lim.max == 1 else t.entries[key].count + 1 >= lim.max
  }

  /** The window that failure falls in opens with it. */
  predicate OpensNow(lim: Limits, t: Table, key: string, now: int) {
    key !in t.entries || Expired(lim, t.entries[key], now) || t.entries[key].first == now
  }

  /** From then on the name is locked exactly until one window after the window's first failure. */
  lemma LockEndsWithItsWindow(lim: Limits, t: Table, user: string, now: int, at: int)
    requires Valid(t) && Triggers(lim, t, ThrottleKey(user), now)
    ensures var key, t' := ThrottleKey(user), AfterFailure(lim, t, user, now);
      Allowed(lim, t', user, at).locked <==> at < Counted(lim, t, key, now).first + lim.window
  {
    var key, t' := ThrottleKey(user), AfterFailure(lim, t, user, now);
    assert key in t'.entries && t'.entries[key] == Counted(lim, t, key, now);
  }

  ghost predicate LockedFor(lim: Limits, t: Table, user: string, now: int, until: int) {
    forall at :: now <= at ==> (Allowed(lim, t, user, at).locked <==> at < until)
  }

  /** The comment says a lock lasts exactly one window from the failure that triggered it. It does exactly when the
      window opened with that failure; otherwise it is shorter by the window's age. */
  lemma LockLastsAWindowExactly(lim: Limits, t: Table, user: string, now: int)
    requires Valid(t) && Triggers(lim, t, ThrottleKey(user), now) && forall k :: k in t.entries ==> t.entries[k].first <= now
    ensures LockedFor(lim, AfterFailure(lim, t, user, now), user, now, now + lim.window) <==> OpensNow(lim, t, ThrottleKey(user), now)
  {
    var key, t' := ThrottleKey(user), AfterFailure(lim, t, user, now);
    forall at ensures Allowed(lim, t', user, at).locked <==> at < Counted(lim, t, key, now).first + lim.window {
      LockEndsWithItsWindow(lim, t, user, now, at);
    }
    if !OpensNow(lim, t, key, now) {
      var end := t.entries[key].first + lim.window;
      assert now <= end < now + lim.window && !Allowed(lim, t', user, end).locked;
    }
  }

  /** `n` failures of one name at one time. */
  function Failures(lim: Limits, t: Table, user: string, now: int, n: nat): Table {
    if n == 0 then t else AfterFailure(lim, Failures(lim, t, user, now, n - 1), user, now)
  }

  lemma {:induction false} FailuresCount(lim: Limits, user: string, n: nat)
    requires lim.max > 0 && lim.window > 0
    ensures var t, key := Failures(lim, Table(map[], []), user, 0, n), ThrottleKey(user);
      t == if n == 0 then Table(map[], []) else Table(map[key := Attempts(n, 0, 0)], [key])
  {
    if n > 0 {
      FailuresCount(lim, user, n - 1);
      if n == 1 {
        FirstFailure(lim, Table(map[], []), user, 0);
      }
    }
  }

  /** All but one of the failures allowed come at once and the last one `late` into the window: the name is locked
      then, and free again from the end of the window on, `late` before a window has passed. */
  lemma LockCanBeShorter(lim: Limits, user: string, late: int, at: int)
    requires lim.max >= 2 && 0 < late < lim.window
    ensures var t := AfterFailure(lim, Failures(lim, Table(map[], []), user, 0, lim.max - 1), user, late);
      && Valid(t) && (late <= at < lim.window ==> Allowed(lim, t, user, at).locked)
      && (lim.window <= at < late + lim.window ==> !Allowed(lim, t, user, at).locked)
  {
    var before := Failures(lim, Table(map[], []), user, 0, lim.max - 1);
    FailuresCount(lim, user, lim.max - 1);
    assert before.order == [ThrottleKey(user)];
    assert Valid(before);
    FailureKeepsValid(lim, before, user, late);
    LockEndsWithItsWindow(lim, before, user, late, at);
  }

  // ---------------------------------------------------------------------------
  // Insertion order is not window order
  // ---------------------------------------------------------------------------

  ghost predicate InWindowOrder<K>(order: seq<K>, m: map<K, Attempts>) {
    && (forall i :: 0 <= i < |order| ==> order[i] in m)
    && forall i, j :: 0 <= i < j < |order| ==> m[order[i]].first <= m[order[j]].first
  }

  /** Somewhere behind `key` there is an entry whose window opened before `now`. */
  ghost predicate OlderBehind<K(!new)>(order: seq<K>, m: map<K, Attempts>, key: K, now: int) {
    exists i, j :: 0 <= i < j < |order| && order[i] == key && order[j] in m && m[order[j]].first < now
  }

  lemma AppendKeepsWindowOrder<K(!new)>(order: seq<K>, m: map<K, Attempts>, key: K, now: int)
    requires ListsKeys(order, m) && InWindowOrder(order, m) && key !in m && forall k :: k in m ==> m[k].first <= now
    ensures InWindowOrder(order + [key], m[key := Attempts(1, now, now)])
  {
  }

  lemma ReplaceInWindowOrder<K(!new)>(order: seq<K>, m: map<K, Attempts>, key: K, e: Attempts, now: int)
    requires ListsKeys(order, m) && InWindowOrder(order, m) && key in m && forall k :: k in m ==> m[k].first <= now
    requires e.first == now || e.first == m[key].first
    ensures InWindowOrder(order, m[key := e]) <==> (e.first == m[key].first || !OlderBehind(order, m, key, now))
  {
    var m' := m[key := e];
    assert forall i :: 0 <= i < |order| && order[i] != key ==> m'[order[i]] == m[order[i]];
    if e.first != m[key].first && OlderBehind(order, m, key, now) {
      var i, j :| 0 <= i < j < |order| && order[i] == key && order[j] in m && m[order[j]].first < now;
      assert m'[order[i]].first > m'[order[j]].first;
    }
  }

  ghost predicate SortedByWindow(t: Table) {
    InWindowOrder(t.order, t.entries)
  }

  /** The failure reopens a closed window in place while an entry behind it opened earlier. */
  ghost predicate ReopensOutOfTurn(lim: Limits, t: Table, user: string, now: int) {
    var key := ThrottleKey(user);
    key in t.entries && Expired(lim, t.entries[key], now) && OlderBehind(t.order, t.entries, key, now)
  }

  lemma FailureInPlace(lim: Limits, t: Table, key: string, now: int)
    requires Valid(t) && SortedByWindow(t) && key in t.entries && forall k :: k in t.entries ==> t.entries[k].first <= now
    ensures InWindowOrder(t.order, t.entries[key := Counted(lim, t, key, now)]) <==>
      !(Expired(lim, t.entries[key], now) && OlderBehind(t.order, t.entries, key, now))
  {
    ReplaceInWindowOrder(t.order, t.entries, key, Counted(lim, t, key, now), now);
    if t.entries[key].first == now {
      NothingIsOlder(t.order, t.entries, key);
    }
  }

  /** A failure leaves the eviction order sorted by when windows opened exactly when it does not reopen one out of turn. */
  lemma WindowOrderKeptExactly(lim: Limits, t: Table, user: string, now: int)
    requires Valid(t) && SortedByWindow(t) && lim.max > 0 && forall k :: k in t.entries ==> t.entries[k].first <= now
    ensures SortedByWindow(AfterFailure(lim, t, user, now)) <==> !ReopensOutOfTurn(lim, t, user, now)
  {
    var key := ThrottleKey(user);
    if key in t.entries {
      FailureInPlace(lim, t, key, now);
    } else {
      NewKeyKeepsOrder(lim, t, user, now);
    }
  }

  lemma NewKeyKeepsOrder(lim: Limits, t: Table, user: string, now: int)
    requires Valid(t) && SortedByWindow(t) && lim.max > 0 && forall k :: k in t.entries ==> t.entries[k].first <= now
    requires ThrottleKey(user) !in t.entries
    ensures SortedByWindow(AfterFailure(lim, t, user, now))
  {
    EvictedIs(t);
    EvictionKeepsOrder(t);
    AppendKeepsWindowOrder(Evicted(t).order, Evicted(t).entries, ThrottleKey(user), now);
  }

  lemma EvictionKeepsOrder(t: Table)
    requires Valid(t) && SortedByWindow(t)
    ensures SortedByWindow(Evicted(t))
  {
    EvictedIs(t);
    if |t.order| == MAX_THROTTLE_KEYS {
      ListsAfterDrop(t.order, t.entries);
    }
  }

  lemma NothingIsOlder<K(!new)>(order: seq<K>, m: map<K, Attempts>, key: K)
    requires InWindowOrder(order, m) && key in m
    ensures !OlderBehind(order, m, key, m[key].first)
  {
  }

  lemma FirstFailure(lim: Limits, t: Table, user: string, now: int)
    requires Valid(t) && lim.max > 0 && ThrottleKey(user) !in t.entries && |t.order| < MAX_THROTTLE_KEYS
    ensures AfterFailure(lim, t, user, now)
         == Table(t.entries[ThrottleKey(user) := Attempts(1, now, now)], t.order + [ThrottleKey(user)])
  {
    EvictedIs(t);
  }

  lemma TwoFailures(lim: Limits, a: string, b: string)
    requires lim.max > 0 && ThrottleKey(a) != ThrottleKey(b)
    ensures var t := AfterFailure(lim, AfterFailure(lim, Table(map[], []), a, 0), b, 1);
      && Valid(t) && t.order == [ThrottleKey(a), ThrottleKey(b)]
      && t.entries[ThrottleKey(a)].first == 0 && t.entries[ThrottleKey(b)].first == 1
  {
    var t0 := Table(map[], []);
    FirstFailure(lim, t0, a, 0);
    FailureKeepsValid(lim, t0, a, 0);
    var t1 := AfterFailure(lim, t0, a, 0);
    FirstFailure(lim, t1, b, 1);
    FailureKeepsValid(lim, t1, b, 1);
  }

  /** Three failures are enough: the first name's window reopens behind the second's. */
  lemma WindowOrderCanBreak(lim: Limits, a: string, b: string)
    requires lim.max > 0 && lim.window > 1 && ThrottleKey(a) != ThrottleKey(b)
    ensures var t := AfterFailure(lim, AfterFailure(lim, AfterFailure(lim, Table(map[], []), a, 0), b, 1), a, lim.window);
      Valid(t) && !SortedByWindow(t)
  {
    TwoFailures(lim, a, b);
    var t2 := AfterFailure(lim, AfterFailure(lim, Table(map[], []), a, 0), b, 1);
    FailureKeepsValid(lim, t2, a, lim.window);
    var t := AfterFailure(lim, t2, a, lim.window);
    assert t.order == t2.order;
    assert t.entries[t.order[0]].first > t.entries[t.order[1]].first;
  }
}
