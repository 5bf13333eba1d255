/** The login decision of labview/internal/access/login.go, and runs of it against the throttle. */
module Logins {
  import opened Options
  import opened Usernames
  import opened Lists
  import opened Throttling
  import opened Base64Url
  import T = Tokens
  import S = Sessions
  import R = Revocations

  datatype Reason = NoReason | Credentials | Throttled | MethodUnavailable

  /** One attempt's outcome: the HTTP status, the code the client is told, and the session if there is one. */
  datatype Login = Login(
    status: int, reason: Reason, retryAfter: int, token: string, claims: Option<T.Claims>, username: string)

  /** What the gate cannot decide itself: whether the method is live, whether the password verifies, and the random
      bytes for an identifier, if the system produced any. */
  datatype Try = Try(user: string, live: bool, right: bool, random: Option<seq<byte>>, now: int)

  /** Attempt's judgement: locked before verified, counted on failure, cleared on success. */
  function Judge(lim: Limits, t: Table, a: Try): (r: (Table, Login))
  {
    var name := Username(a.user);
    var locked := Allowed(lim, t, a.user, a.now);
    if !a.live then (t, Unavailable(name))
    else if locked.locked then (t, TooMany(name, locked.retryAfter))
    else if !a.right then
      var after := AfterFailure(lim, t, a.user, a.now);
      var now := if lim.max <= 0 then OPEN else VerdictOn(lim, Counted(lim, t, ThrottleKey(a.user), a.now), a.now);
      (after, if now.locked then TooMany(name, now.retryAfter) else Login(401, Credentials, 0, "", None, name))
    else if a.random.None? then (t, Unavailable(name))
    else (AfterSuccess(t, a.user), Login(200, NoReason, 0, "", None, name))
  }

  function Unavailable(name: string): Login { Login(503, MethodUnavailable, 0, "", None, name) }

  function TooMany(name: string, retryAfter: int): Login { Login(429, Throttled, retryAfter, "", None, name) }

  /** The session a 200 carries. */
  function WithSession(signer: (T.Codec, int), l: Login, a: Try, via: T.LoginMethod): Login
    requires l.status == 200 ==> a.random.Some?
  {
    if l.status != 200 then l
    else
      var c := S.ClaimsFor(signer.1, a.user, via, a.random.value, a.now);
      l.(token := S.TokenOf(signer.0, c), claims := Some(c), username := c.u)
  }

  class Gate {
    const throttle: Throttle
    const signer: S.Signer

    constructor (throttle: Throttle, signer: S.Signer)
      ensures this.throttle == throttle && this.signer == signer
    {
      this.throttle, this.signer := throttle, signer;
    }

    method Attempt(a: Try) returns (out: Login)
      modifies throttle
      ensures throttle.State() == Judge(throttle.lim, old(throttle.State()), a).0
      ensures out == WithSession((signer.codec, signer.ttl), Judge(throttle.lim, old(throttle.State()), a).1, a, T.Passwd)
    {
      out := Login(0, NoReason, 0, "", None, Username(a.user));
      if !a.live {
        out := out.(status := 503, reason := MethodUnavailable);
        return;
      }
      var verdict := throttle.Allow(a.user, a.now);
      if verdict.locked {
        out := out.(status := 429, reason := Throttled, retryAfter := verdict.retryAfter);
        return;
      }
      if !a.right {
        verdict := throttle.Failed(a.user, a.now);
        if verdict.locked {
          out := out.(status := 429, reason := Throttled, retryAfter := verdict.retryAfter);
          return;
        }
        out := out.(status := 401, reason := Credentials);
        return;
      }
      if a.random.None? {
        out := out.(status := 503, reason := MethodUnavailable);
        return;
      }
      var token, claims := signer.Mint(a.user, T.Passwd, a.random.value, a.now);
      throttle.Succeeded(a.user);
      out := out.(status := 200, token := token, claims := Some(claims), username := claims.u);
    }

    /** A sign-in proved elsewhere: the throttle is neither asked nor reset. */
    method Accept(a: Try, via: T.LoginMethod) returns (out: Login)
      ensures out == if !a.live || a.random.None? then Unavailable(Username(a.user))
                     else WithSession((signer.codec, signer.ttl), Login(200, NoReason, 0, "", None, Username(a.user)), a, via)
    {
      out := Login(0, NoReason, 0, "", None, Username(a.user));
      if !a.live || a.random.None? {
        out := out.(status := 503, reason := MethodUnavailable);
        return;
      }
      var token, claims := signer.Mint(a.user, via, a.random.value, a.now);
      out := out.(status := 200, token := token, claims := Some(claims), username := claims.u);
    }

    method Logout(token: Option<string>, now: int)
      requires |signer.revoked.at| <= R.MAX_REVOCATIONS
      modifies signer.revoked
      ensures token.None? ==> signer.revoked.at == old(signer.revoked.at)
      ensures token.Some? ==>
        R.AddStep(old(signer.revoked.at), S.WriteOf(signer.codec, S.LogoutEvent(token.value, now)), signer.revoked.at)
    {
      if token.Some? {
        signer.Logout(token.value, now);
      }
    }
  }

  // ---------------------------------------------------------------------------
  // Runs of attempts
  // ---------------------------------------------------------------------------

  /** The tables one throttle goes through under a run of attempts. */
  ghost predicate IsRun(lim: Limits, ts: seq<Table>, tries: seq<Try>) {
    && |ts| == |tries| + 1
    && forall i :: 0 <= i < |tries| ==> ts[i + 1] == Judge(lim, ts[i], tries[i]).0
  }

  /** A valid table, with every count between one and the limit, and nothing counted when the throttle is off. */
  ghost predicate Sound(lim: Limits, t: Table) {
    && Valid(t)
    && forall k :: k in t.entries ==> 1 <= t.entries[k].count <= lim.max
  }

  lemma JudgeKeepsSound(lim: Limits, t: Table, a: Try)
    requires Sound(lim, t)
    ensures Sound(lim, Judge(lim, t, a).0)
  {
    SuccessKeepsValid(t, a.user);
    if !Allowed(lim, t, a.user, a.now).locked {
      FailureKeepsSound(lim, t, a.user, a.now);
    }
  }

  lemma FailureKeepsSound(lim: Limits, t: Table, user: string, now: int)
    requires Sound(lim, t) && !Allowed(lim, t, user, now).locked
    ensures Sound(lim, AfterFailure(lim, t, user, now))
  {
    FailureKeepsValid(lim, t, user, now);
    if lim.max > 0 {
      var e := Counted(lim, t, ThrottleKey(user), now);
      assert 1 <= e.count <= lim.max;
      if ThrottleKey(user) !in t.entries {
        EvictedIs(t);
      }
    }
  }

  /** From an empty table, every reachable table is sound: the counts never pass the limit, the table never passes
      its cap, and `order` lists its keys. */
  lemma {:induction false} RunIsSound(lim: Limits, ts: seq<Table>, tries: seq<Try>, i: nat)
    requires IsRun(lim, ts, tries) && ts[0] == Table(map[], []) && i < |ts|
    ensures Sound(lim, ts[i])
  {
    if i > 0 {
      RunIsSound(lim, ts, tries, i - 1);
      JudgeKeepsSound(lim, ts[i - 1], tries[i - 1]);
    }
  }

  /** The window is open and the limit is reached. */
  predicate LockedOut(lim: Limits, t: Table, key: string, now: int) {
    key in t.entries && t.entries[key].count >= lim.max > 0 && !Expired(lim, t.entries[key], now)
  }

  /** A locked name is refused whatever its case and whatever the password, and nothing is counted; and a name is
      refused as throttled without counting only when it is locked. */
  lemma LockedIsRefused(lim: Limits, t: Table, a: Try)
    requires a.live
    ensures LockedOut(lim, t, ThrottleKey(a.user), a.now) <==>
      (Judge(lim, t, a).1.status == 429 && Allowed(lim, t, a.user, a.now).locked)
    ensures LockedOut(lim, t, ThrottleKey(a.user), a.now) ==>
      && Judge(lim, t, a).0 == t
      && forall right, random :: Judge(lim, t, a.(right := right, random := random)).1 == Judge(lim, t, a).1
  {
  }

  /** The keys newly inserted by a run. */
  function Inserted(ts: seq<Table>): nat {
    if |ts| < 2 then 0
    else Inserted(ts[..|ts| - 1]) + (if NewKey(ts[|ts| - 2], ts[|ts| - 1]) then 1 else 0)
  }

  predicate NewKey(t: Table, t': Table) {
    |t'.order| > 0 && t'.order[|t'.order| - 1] !in t.entries
  }

  /** `key` stands in the table with the entry `e`, with at most `n` keys behind it. */
  ghost predicate Stands<K(!new)>(order: seq<K>, m: map<K, Attempts>, key: K, e: Attempts, n: int) {
    key in m && m[key] == e && exists i :: 0 <= i < |order| && order[i] == key && |order| - 1 - i <= n
  }

  lemma StandsAfterAppend<K(!new)>(order: seq<K>, m: map<K, Attempts>, key: K, e: Attempts, n: int, k: K, v: Attempts)
    requires Stands(order, m, key, e, n) && k != key
    ensures Stands(order + [k], m[k := v], key, e, n + 1)
  {
    var i :| 0 <= i < |order| && order[i] == key && |order| - 1 - i <= n;
    assert (order + [k])[i] == key;
  }

  lemma StandsAfterDrop<K(!new)>(order: seq<K>, m: map<K, Attempts>, key: K, e: Attempts, n: int)
    requires Stands(order, m, key, e, n) && Distinct(order) && n < |order| - 1
    ensures Stands(order[1..], m - {order[0]}, key, e, n)
  {
    var i :| 0 <= i < |order| && order[i] == key && |order| - 1 - i <= n;
    assert order[1..][i - 1] == key && order[0] != order[i];
  }

  lemma {:induction false} StandsAfterWithout<K(!new)>(order: seq<K>, m: map<K, Attempts>, key: K, e: Attempts, n: int, k: K)
    requires Stands(order, m, key, e, n) && Distinct(order) && k != key
    ensures Stands(Without(order, k), m - {k}, key, e, n)
  {
    var i :| 0 <= i < |order| && order[i] == key && |order| - 1 - i <= n;
    var j := PlaceAfterWithout(order, key, i, k);
  }

  lemma {:induction false} PlaceAfterWithout<K(!new)>(order: seq<K>, key: K, i: nat, k: K) returns (j: nat)
    requires i < |order| && order[i] == key && k != key && Distinct(order)
    ensures var r := Without(order, k); j < |r| && r[j] == key && |r| - 1 - j <= |order| - 1 - i
  {
    if order[0] == k {
      j := i - 1;
    } else if i == 0 {
      j := 0;
      WithoutIs(order, k);
    } else {
      j := PlaceAfterWithout(order[1..], key, i - 1, k);
      j := j + 1;
    }
  }

  /** One attempt that does not touch `key`'s entry leaves it standing, and puts at most one more key behind it,
      which happens only when a key is inserted. */
  lemma OneTry(lim: Limits, t: Table, a: Try, key: string, e: Attempts, n: int)
    requires Sound(lim, t) && Stands(t.order, t.entries, key, e, n)
    requires NewKey(t, Judge(lim, t, a).0) ==> n < MAX_THROTTLE_KEYS - 1
    requires ThrottleKey(a.user) == key ==> LockedOut(lim, t, key, a.now)
    ensures var t' := Judge(lim, t, a).0;
      Stands(t'.order, t'.entries, key, e, if NewKey(t, t') then n + 1 else n)
  {
    var t' := Judge(lim, t, a).0;
    var k := ThrottleKey(a.user);
    SplitKeys(t);
    if t' != t {
      if a.right {
        StandsAfterWithout(t.order, t.entries, key, e, n, k);
        WithoutIs(t.order, k);
        assert |t'.order| > 0 ==> t'.order[|t'.order| - 1] in t'.order;
      } else if k in t.entries {
        assert t'.order == t.order && t'.entries[key] == e;
      } else {
        EvictedIs(t);
        if |t.order| == MAX_THROTTLE_KEYS {
          StandsAfterDrop(t.order, t.entries, key, e, n);
        }
        var room := Evicted(t);
        StandsAfterAppend(room.order, room.entries, key, e, n, k, Counted(lim, t, k, a.now));
        assert t'.order[|t'.order| - 1] == k;
      }
    }
  }

  lemma SplitKeys(t: Table)
    requires Valid(t)
    ensures |t.order| > 0 ==> t.order[|t.order| - 1] in t.entries
  {
    assert |t.order| > 0 ==> t.order[|t.order| - 1] in t.order;
  }

  /** An entry survives any run that never judges its name while it is unlocked, until as many keys have been
      inserted behind it as the table holds: with `n` behind it now, it stands while `n` plus the insertions stay
      under the cap. While it stands and its window is open, its name stays locked. */
  lemma {:induction false} EntryOutlivesInsertions(lim: Limits, ts: seq<Table>, tries: seq<Try>, key: string, e: Attempts, n: int)
    requires IsRun(lim, ts, tries) && Sound(lim, ts[0]) && Stands(ts[0].order, ts[0].entries, key, e, n)
    requires n + Inserted(ts) < MAX_THROTTLE_KEYS && e.count >= lim.max > 0
    requires forall i :: 0 <= i < |tries| && ThrottleKey(tries[i].user) == key ==> !Expired(lim, e, tries[i].now)
    ensures var t := ts[|tries|]; Sound(lim, t) && Stands(t.order, t.entries, key, e, n + Inserted(ts))
  {
    if tries != [] {
      var m := |tries| - 1;
      assert ts[..m + 1] == ts[..|ts| - 1];
      EntryOutlivesInsertions(lim, ts[..m + 1], tries[..m], key, e, n);
      JudgeKeepsSound(lim, ts[m], tries[m]);
      OneTry(lim, ts[m], tries[m], key, e, n + Inserted(ts[..m + 1]));
    }
  }

  /** Once a name has reached the limit, every live attempt on any case of it, right or wrong, is answered 429 without
      touching the table, until its window closes or as many other keys have been inserted behind it as the table holds. */
  lemma LockHolds(lim: Limits, ts: seq<Table>, tries: seq<Try>, key: string, e: Attempts, n: int, a: Try)
    requires IsRun(lim, ts, tries) && Sound(lim, ts[0]) && Stands(ts[0].order, ts[0].entries, key, e, n)
    requires n + Inserted(ts) < MAX_THROTTLE_KEYS && e.count >= lim.max > 0
    requires forall i :: 0 <= i < |tries| && ThrottleKey(tries[i].user) == key ==> !Expired(lim, e, tries[i].now)
    requires ThrottleKey(a.user) == key && a.live && a.now < e.first + lim.window && lim.window > 0
    ensures Judge(lim, ts[|tries|], a) == (ts[|tries|], TooMany(Username(a.user), RetryAfter(lim, e, a.now)))
  {
    EntryOutlivesInsertions(lim, ts, tries, key, e, n);
    LockedIsRefused(lim, ts[|tries|], a);
  }
}
