/** Every step of the cache protocol keeps its invariant. */
module CacheInvariant {
  import opened Options
  import opened BuildCache
  import opened CacheProtocol

  // ---------------------------------------------------------------------------
  // Requests
  // ---------------------------------------------------------------------------

  lemma ArriveKeeps(cfg: Config, s: State, forced: bool, probe: Option<bool>)
    requires Inv(cfg, s)
    ensures Inv(cfg, Do(cfg, s, Arrive(forced, probe)))
  {
    var s' := Do(cfg, s, Arrive(forced, probe));
    assert forall r: nat, b: nat :: ForcedBy(s.requests, r, b) ==> ForcedBy(s'.requests, r, b);
  }

  lemma MoveKeeps(cfg: Config, s: State, r: nat, point: Point)
    requires Inv(cfg, s) && r < |s.requests|
    requires RequestInv(cfg, s.cache.builds, |s.log|, s.requests[r].(point := point))
    ensures Inv(cfg, Move(s, r, point))
  {
    var s' := Move(s, r, point);
    assert forall r: nat, b: nat :: ForcedBy(s.requests, r, b) ==> ForcedBy(s'.requests, r, b);
  }

  lemma LockKeeps(cfg: Config, s: State, r: nat)
    requires Inv(cfg, s) && Enabled(s, Lock(r))
    ensures Inv(cfg, Do(cfg, s, Lock(r)))
  {
    var q := s.requests[r];
    var k := FirstSuiting(s.cache, q.probe, 0);
    if k < |s.cache.queued| {
      JoinKeeps(cfg, s, r, s.cache.queued[k]);
    } else if RunningSuits(s.cache, q.arrived, q.forced, q.probe) {
      JoinKeeps(cfg, s, r, s.cache.running.value);
    } else if !q.forced && Fresh(cfg, s.cache, q.arrived) && ProbeSuits(q.probe, s.cache.probe) {
      var held := Answered(FromHeld(|s.log| - 1, s.cache.current.value));
      MoveKeeps(cfg, s, r, held);
      assert Do(cfg, s, Lock(r)) == Move(s, r, held);
    } else {
      CreateKeeps(cfg, s, r);
    }
  }

  ghost function Joined(s: State, r: nat, b: nat): State
    requires r < |s.requests| && b < |s.cache.builds|
  {
    s.(cache := Joining(s.cache, b, s.requests[r].forced),
       requests := s.requests[r := s.requests[r].(joined := Some(b), point := Waiting)])
  }

  /** Requests keep what they rely on when builds change only in `forced` (upwards), `began`, `done`, or by later stages. */
  lemma RequestsFrame(cfg: Config, builds: seq<Build>, p: nat, builds': seq<Build>, p': nat, requests: seq<Request>)
    requires BuildsInv(builds, p) && BuildsInv(builds', p') && p <= p' && |builds| <= |builds'|
    requires RequestsInv(cfg, builds, p, requests)
    requires forall b :: 0 <= b < |builds| ==> Grown(builds[b], builds'[b])
    requires forall b, r :: 0 <= r < |requests| && 0 <= b < |builds| && builds[b].startedAt.None? && builds'[b].startedAt.Some?
                ==> builds'[b].startedAt.value >= requests[r].arrived
    ensures RequestsInv(cfg, builds', p', requests)
  {
    forall r | 0 <= r < |requests| ensures RequestInv(cfg, builds', p', requests[r]) {
      assert RequestInv(cfg, builds, p, requests[r]);
      var q := requests[r];
      if q.joined.Some? {
        assert Grown(builds[q.joined.value], builds'[q.joined.value]);
      }
      if q.point.Answered? {
        match q.point.reply
        case FromBuild(b, _) => assert Grown(builds[b], builds'[b]);
        case FromHeld(b, _) => assert Grown(builds[b], builds'[b]);
        case FromPeek(k, _) => if k > 0 { assert Grown(builds[k - 1], builds'[k - 1]); }
      }
    }
  }

  ghost predicate Grown(a: Build, b: Build) {
    && a.probe == b.probe && (a.forced ==> b.forced)
    && (a.startedAt.Some? ==> b.startedAt == a.startedAt) && (a.result.Some? ==> b.result == a.result)
  }

  /** The log reads only results and the `forced` marks of published builds. */
  lemma LogFrame(builds: seq<Build>, builds': seq<Build>, log: seq<Notice>)
    requires BuildsInv(builds, |log|) && BuildsInv(builds', |log|) && LogInv(builds, log)
    requires forall b :: 0 <= b < |log| ==> builds'[b].result == builds[b].result && builds'[b].forced == builds[b].forced
    ensures LogInv(builds', log)
  {
    forall i | 0 <= i < |log| ensures log[i] == NoticeOf(builds', i) {
      assert log[i] == NoticeOf(builds, i);
    }
  }

  lemma JoinKeeps(cfg: Config, s: State, r: nat, b: nat)
    requires Inv(cfg, s) && r < |s.requests| && s.requests[r].point == AtLock
    requires |s.log| <= b < |s.cache.builds| && ProbeSuits(s.requests[r].probe, s.cache.builds[b].probe)
    requires s.requests[r].forced && s.cache.builds[b].startedAt.Some? ==>
               s.cache.builds[b].startedAt.value >= s.requests[r].arrived
    ensures Inv(cfg, Joined(s, r, b))
  {
    JoinKeepsCore(cfg, s, r, b);
    DoneFrame(s.drains, s.drains, s.cache.builds, Joined(s, r, b).cache.builds, |s.log|);
  }

  lemma JoinKeepsCore(cfg: Config, s: State, r: nat, b: nat)
    requires Inv(cfg, s) && r < |s.requests| && s.requests[r].point == AtLock
    requires |s.log| <= b < |s.cache.builds| && ProbeSuits(s.requests[r].probe, s.cache.builds[b].probe)
    requires s.requests[r].forced && s.cache.builds[b].startedAt.Some? ==>
               s.cache.builds[b].startedAt.value >= s.requests[r].arrived
    ensures CoreInv(cfg, Joined(s, r, b))
  {
    var s' := Joined(s, r, b);
    var builds, builds' := s.cache.builds, s'.cache.builds;
    LogFrame(builds, builds', s.log);
    assert BuildsInv(builds', |s.log|);
    RequestsFrame(cfg, builds, |s.log|, builds', |s.log|, s.requests);
    forall x | 0 <= x < |builds'| && builds'[x].forced
      ensures exists i: nat :: ForcedBy(s'.requests, i, x)
    {
      ForcedAfterJoin(s, r, b, x);
    }
  }

  lemma ForcedAfterJoin(s: State, r: nat, b: nat, x: nat)
    requires r < |s.requests| && b < |s.cache.builds| && s.requests[r].joined == None
    requires ForcedInv(s.requests, s.cache.builds)
    requires x < |s.cache.builds| && Joined(s, r, b).cache.builds[x].forced
    ensures exists i: nat :: ForcedBy(Joined(s, r, b).requests, i, x)
  {
    var requests' := Joined(s, r, b).requests;
    if s.cache.builds[x].forced {
      var i: nat :| ForcedBy(s.requests, i, x);
      assert ForcedBy(requests', i, x);
    } else {
      assert ForcedBy(requests', r, x);
    }
  }

  lemma CreateKeeps(cfg: Config, s: State, r: nat)
    requires Inv(cfg, s) && Enabled(s, Lock(r))
    requires Admit(cfg, s.cache, s.requests[r].arrived, s.requests[r].forced, s.requests[r].probe).1.Create?
    ensures Inv(cfg, Do(cfg, s, Lock(r)))
  {
    CreateKeepsCore(cfg, s, r);
    CreateKeepsDrains(cfg, s, r);
  }

  lemma CreateKeepsCore(cfg: Config, s: State, r: nat)
    requires Inv(cfg, s) && Enabled(s, Lock(r))
    requires Admit(cfg, s.cache, s.requests[r].arrived, s.requests[r].forced, s.requests[r].probe).1.Create?
    ensures CoreInv(cfg, Do(cfg, s, Lock(r)))
  {
    var s' := Do(cfg, s, Lock(r));
    var q, builds, builds' := s.requests[r], s.cache.builds, s'.cache.builds;
    var b := builds'[|builds|];
    assert builds' == builds + [b];
    CreateKeepsCache(cfg, s.cache, |s.log|, q.arrived, q.forced, q.probe);
    LogFrame(builds, builds', s.log);
    CreateKeepsRequests(cfg, builds, |s.log|, s.requests, r, b);
    ForcedAfterCreate(s.requests, r, builds, b);
  }

  lemma CreateKeepsRequests(cfg: Config, builds: seq<Build>, p: nat, requests: seq<Request>, r: nat, b: Build)
    requires BuildsInv(builds, p) && BuildsInv(builds + [b], p) && RequestsInv(cfg, builds, p, requests)
    requires r < |requests| && requests[r].point == AtLock
    requires Entitled(requests[r].(joined := Some(|builds|)), b)
    ensures RequestsInv(cfg, builds + [b], p, requests[r := requests[r].(joined := Some(|builds|), point := Waiting)])
  {
    RequestsFrame(cfg, builds, p, builds + [b], p, requests);
  }

  lemma ForcedAfterCreate(requests: seq<Request>, r: nat, builds: seq<Build>, b: Build)
    requires r < |requests| && requests[r].joined == None && ForcedInv(requests, builds)
    requires b.forced ==> requests[r].forced
    ensures ForcedInv(requests[r := requests[r].(joined := Some(|builds|), point := Waiting)], builds + [b])
  {
    var requests', builds' := requests[r := requests[r].(joined := Some(|builds|), point := Waiting)], builds + [b];
    forall x: nat | x < |builds'| && builds'[x].forced
      ensures exists i: nat :: ForcedBy(requests', i, x)
    {
      if x < |builds| {
        var i: nat :| ForcedBy(requests, i, x);
        assert ForcedBy(requests', i, x);
      } else {
        assert ForcedBy(requests', r, x);
      }
    }
  }

  lemma CreateKeepsCache(cfg: Config, c: Shared, p: nat, arrived: int, forced: bool, probe: Option<bool>)
    requires CacheInv(c, p) && c.Sound() && Admit(cfg, c, arrived, forced, probe).1.Create?
    ensures CacheInv(Admit(cfg, c, arrived, forced, probe).0, p)
  {
    var n := |c.builds|;
    assert FirstSuiting(c, probe, 0) == |c.queued|;
    forall b | p < b < n ensures !ProbeSuits(probe, c.builds[b].probe) {
      assert c.queued[b - p - 1] == b;
      assert !SuitsQueued(c, probe, b - p - 1);
    }
  }

  lemma CreateKeepsDrains(cfg: Config, s: State, r: nat)
    requires Inv(cfg, s) && Enabled(s, Lock(r))
    requires Admit(cfg, s.cache, s.requests[r].arrived, s.requests[r].forced, s.requests[r].probe).1.Create?
    ensures DrainInv(cfg, Do(cfg, s, Lock(r)))
  {
    var s' := Do(cfg, s, Lock(r));
    assert s'.cache.pending == s.cache.pending;
    DoneFrame(s.drains, s'.drains, s.cache.builds, s'.cache.builds, |s.log|);
    if s.cache.running.None? {
      assert s'.drains == s.drains + [Ready(|s.cache.builds|)];
      OwnerAppears(s.drains, |s.cache.builds|);
    } else {
      assert s'.drains == s.drains;
    }
    TellersStay(cfg, s, s'.drains);
    EnteredStays(s.drains, s'.drains, s.cache.builds, s'.cache.builds, |s.log|);
  }

  lemma EnteredStays(drains: seq<Drain>, drains': seq<Drain>, builds: seq<Build>, builds': seq<Build>, p: nat)
    requires BeganInv(drains, builds, p) && builds <= builds' && drains <= drains'
    requires forall d :: |drains| <= d < |drains'| ==> drains'[d].Ready?
    ensures BeganInv(drains', builds', p)
  {
    forall d | 0 <= d < |drains'| ensures Entered(drains'[d], builds', p) {
      if d < |drains| {
        assert Entered(drains[d], builds, p);
      }
    }
  }

  lemma OwnerAppears(drains: seq<Drain>, b: nat)
    requires OwnerInv(drains, None)
    ensures OwnerInv(drains + [Ready(b)], Some(b))
  {
    assert forall d: nat :: !Owner(drains, d);
    assert Owner(drains + [Ready(b)], |drains|);
  }

  lemma TellersStay(cfg: Config, s: State, drains': seq<Drain>)
    requires NotifyInv(s.drains, s.notifier) && ToldInv(cfg, s.drains, s.notifier, s.told, s.cache.pending, s.log)
    requires OwedInv(s.drains, s.cache.pending) && |s.drains| <= |drains'| && drains'[..|s.drains|] == s.drains
    requires forall d :: |s.drains| <= d < |drains'| ==> drains'[d].Ready?
    ensures NotifyInv(drains', s.notifier) && ToldInv(cfg, drains', s.notifier, s.told, s.cache.pending, s.log)
    ensures OwedInv(drains', s.cache.pending)
  {
    assert forall d :: 0 <= d < |s.drains| ==> drains'[d] == s.drains[d];
    assert InHand(drains', s.notifier) == InHand(s.drains, s.notifier);
  }

  // ---------------------------------------------------------------------------
  // The drain
  // ---------------------------------------------------------------------------

  lemma BeginKeeps(cfg: Config, s: State, d: nat)
    requires Inv(cfg, s) && Enabled(s, Begin(d))
    ensures Inv(cfg, Do(cfg, s, Begin(d)))
  {
    BeginKeepsCore(cfg, s, d);
    BeginKeepsDrains(cfg, s, d);
  }

  lemma BeginKeepsCore(cfg: Config, s: State, d: nat)
    requires Inv(cfg, s) && Enabled(s, Begin(d))
    ensures CoreInv(cfg, Do(cfg, s, Begin(d)))
  {
    var s' := Do(cfg, s, Begin(d));
    assert Owner(s.drains, d);
    BeginKeepsCache(s.cache, |s.log|, s.clock);
    LogFrame(s.cache.builds, s'.cache.builds, s.log);
    RequestsFrame(cfg, s.cache.builds, |s.log|, s'.cache.builds, |s.log|, s.requests);
    assert forall x: nat :: x < |s.cache.builds| && s'.cache.builds[x].forced ==> s.cache.builds[x].forced;
  }

  lemma BeginKeepsCache(c: Shared, p: nat, now: int)
    requires CacheInv(c, p) && p < |c.builds|
    ensures CacheInv(c.(builds := c.builds[p := c.builds[p].(began := Some(now))]), p)
  {
  }

  lemma BeginKeepsDrains(cfg: Config, s: State, d: nat)
    requires Inv(cfg, s) && Enabled(s, Begin(d))
    ensures DrainInv(cfg, Do(cfg, s, Begin(d)))
  {
    var s' := Do(cfg, s, Begin(d));
    DoneFrame(s.drains, s.drains, s.cache.builds, s'.cache.builds, |s.log|);
    DrainMoves(s.drains, s'.drains, d, s.cache.running, s'.cache.builds, |s.log|);
    forall e | 0 <= e < |s.drains| ensures Entered(s'.drains[e], s'.cache.builds, |s.log|) {
      assert Entered(s.drains[e], s.cache.builds, |s.log|);
    }
    assert InHand(s'.drains, s'.notifier) == InHand(s.drains, s.notifier);
    if s.cache.pending != [] {
      var e :| 0 <= e < |s.drains| && WillPop(s.drains[e]);
      assert WillPop(s'.drains[e]);
    }
  }

  /** Moving one drain without changing what it owns keeps single ownership. */
  lemma DrainMoves(drains: seq<Drain>, drains': seq<Drain>, d: nat, running: Option<nat>, builds: seq<Build>, p: nat)
    requires d < |drains| == |drains'| && drains' == drains[d := drains'[d]]
    requires OwnerInv(drains, running) && Owned(drains'[d]) == Owned(drains[d])
    requires p <= |builds| && DoneInv(drains, builds, p)
    requires drains[d].Closing? ==> drains[d].b < p && builds[drains[d].b].done
    ensures OwnerInv(drains', running) && DoneInv(drains', builds, p)
  {
    assert forall e: nat :: Owner(drains, e) <==> Owner(drains', e);
    DoneFrame(drains, drains', builds, builds, p);
  }

  /** Open `done` channels keep their closers. */
  lemma DoneFrame(drains: seq<Drain>, drains': seq<Drain>, builds: seq<Build>, builds': seq<Build>, p: nat)
    requires p <= |builds| && p <= |builds'| && DoneInv(drains, builds, p)
    requires forall b: nat :: b < p && builds[b].done ==> builds'[b].done
    requires forall d: nat :: d < |drains| && drains[d].Closing? ==>
      (d < |drains'| && drains'[d] == drains[d]) || (drains[d].b < p && builds'[drains[d].b].done)
    ensures DoneInv(drains', builds', p)
  {
    forall b: nat | b < p && !builds'[b].done ensures exists d: nat :: IsClosing(drains', d, b) {
      var d: nat :| IsClosing(drains, d, b);
      assert IsClosing(drains', d, b);
    }
  }

  lemma PublishKeepsCore(cfg: Config, s: State, d: nat, out: Overview)
    requires Inv(cfg, s) && Enabled(s, Publish(d, out))
    ensures CoreInv(cfg, Do(cfg, s, Publish(d, out)))
  {
    var p := |s.log|;
    assert Owner(s.drains, d);
    assert s.drains[d].b == p;
    assert Entered(s.drains[d], s.cache.builds, p);
    PublishKeepsCache(cfg, s.cache, p, out, s.clock);
    PublishKeepsRest(cfg, s.cache, s.log, s.requests, out, s.clock);
  }

  lemma PublishKeepsRest(cfg: Config, c: Shared, log: seq<Notice>, requests: seq<Request>, out: Overview, now: int)
    requires var p := |log|;
      && CacheInv(c, p) && c.Sound() && p < |c.builds| && c.builds[p].startedAt.Some? && c.builds[p].began.Some?
    requires CacheInv(Published(cfg, c, |log|, out, now), |log| + 1)
    requires ClockInv(requests, c.builds, now) && LogInv(c.builds, log)
    requires RequestsInv(cfg, c.builds, |log|, requests) && ForcedInv(requests, c.builds)
    ensures var builds', n := Published(cfg, c, |log|, out, now).builds, Notice(c.current, out, c.builds[|log|].forced);
      && ClockInv(requests, builds', now) && LogInv(builds', log + [n])
      && RequestsInv(cfg, builds', |log| + 1, requests) && ForcedInv(requests, builds')
  {
    var p, builds' := |log|, Published(cfg, c, |log|, out, now).builds;
    RequestsFrame(cfg, c.builds, p, builds', p + 1, requests);
    assert forall x: nat :: x < |c.builds| ==> builds'[x].forced == c.builds[x].forced;
    PublishKeepsLog(c.builds, log, builds', Notice(c.current, out, c.builds[p].forced));
  }

  lemma PublishKeepsLog(builds: seq<Build>, log: seq<Notice>, builds': seq<Build>, n: Notice)
    requires BuildsInv(builds, |log|) && LogInv(builds, log) && BuildsInv(builds', |log| + 1)
    requires forall b :: 0 <= b < |log| ==> builds'[b] == builds[b]
    requires n == NoticeOf(builds', |log|)
    ensures LogInv(builds', log + [n])
  {
    forall i | 0 <= i < |log| ensures log[i] == NoticeOf(builds', i) {
      assert log[i] == NoticeOf(builds, i);
    }
  }

  lemma PublishKeepsCache(cfg: Config, c: Shared, p: nat, out: Overview, now: int)
    requires CacheInv(c, p) && c.Sound() && p < |c.builds| && c.builds[p].startedAt.Some? && c.builds[p].began.Some?
    ensures CacheInv(Published(cfg, c, p, out, now), p + 1)
  {
    var c' := Published(cfg, c, p, out, now);
    if |c.queued| > 0 {
      assert c.queued[0] == p + 1;
    }
    forall b | 0 <= b < |c'.builds| ensures BuildStage(c'.builds[b], b, p + 1) {
      assert BuildStage(c.builds[b], b, p);
    }
  }

  lemma PublishKeepsDrains(cfg: Config, s: State, d: nat, out: Overview)
    requires Inv(cfg, s) && Enabled(s, Publish(d, out))
    ensures DrainInv(cfg, Do(cfg, s, Publish(d, out)))
  {
    var s' := Do(cfg, s, Publish(d, out));
    assert Owner(s.drains, d);
    PublishKeepsOwner(s.drains, d, s.cache.running, s'.cache.running);
    PublishKeepsDone(s.drains, d, s.cache.builds, s'.cache.builds, |s.log|, s'.cache.running);
    PublishKeepsTold(cfg, s.drains, d, s'.cache.running, s.notifier, s.told, s.cache.pending, s.log, s'.log[|s.log|]);
  }

  lemma PublishKeepsTold(cfg: Config, drains: seq<Drain>, d: nat, next: Option<nat>, notifier: Option<nat>,
                         told: seq<Notice>, pending: seq<Notice>, log: seq<Notice>, n: Notice)
    requires d < |drains| && drains[d].Building? && NotifyInv(drains, notifier)
    requires ToldInv(cfg, drains, notifier, told, pending, log)
    ensures var drains' := drains[d := Closing(drains[d].b, next)];
      && NotifyInv(drains', notifier) && OwedInv(drains', pending + [n]) && OwedInv(drains', pending)
      && ToldInv(cfg, drains', notifier, told, if cfg.listening then pending + [n] else pending, log + [n])
  {
    var drains' := drains[d := Closing(drains[d].b, next)];
    assert InHand(drains', notifier) == InHand(drains, notifier);
    assert WillPop(drains'[d]);
  }

  lemma PublishKeepsDone(drains: seq<Drain>, d: nat, builds: seq<Build>, builds': seq<Build>, p: nat, next: Option<nat>)
    requires p < |builds| == |builds'| && d < |drains| && drains[d] == Building(p)
    requires DoneInv(drains, builds, p) && BeganInv(drains, builds, p)
    requires forall b: nat :: b < |builds| ==> builds'[b].done == builds[b].done && builds'[b].began == builds[b].began
    ensures var drains' := drains[d := Closing(p, next)]; DoneInv(drains', builds', p + 1) && BeganInv(drains', builds', p + 1)
  {
    var drains' := drains[d := Closing(p, next)];
    DoneFrame(drains, drains', builds, builds', p);
    assert IsClosing(drains', d, p);
    forall e: nat | e < |drains| ensures Entered(drains'[e], builds', p + 1) {
      assert Entered(drains[e], builds, p);
    }
  }

  lemma PublishKeepsOwner(drains: seq<Drain>, d: nat, running: Option<nat>, running': Option<nat>)
    requires OwnerInv(drains, running) && Owner(drains, d) && drains[d].Building?
    ensures OwnerInv(drains[d := Closing(drains[d].b, running')], running')
  {
    var drains' := drains[d := Closing(drains[d].b, running')];
    assert forall e: nat :: Owner(drains', e) ==> e == d || Owner(drains, e);
    if running'.Some? {
      assert Owner(drains', d);
    }
  }

  lemma CloseKeeps(cfg: Config, s: State, d: nat)
    requires Inv(cfg, s) && Enabled(s, Close(d))
    ensures Inv(cfg, Do(cfg, s, Close(d)))
  {
    CloseKeepsCore(cfg, s, d);
    CloseKeepsDrains(cfg, s, d);
  }

  lemma CloseKeepsCore(cfg: Config, s: State, d: nat)
    requires Inv(cfg, s) && Enabled(s, Close(d))
    ensures CoreInv(cfg, Do(cfg, s, Close(d)))
  {
    var s' := Do(cfg, s, Close(d));
    var b, builds, builds', p := s.drains[d].b, s.cache.builds, s'.cache.builds, |s.log|;
    assert Entered(s.drains[d], builds, p);
    CloseKeepsCache(s.cache, p, b);
    LogFrame(builds, builds', s.log);
    RequestsFrame(cfg, builds, p, builds', p, s.requests);
    assert forall x: nat :: x < |builds| && builds'[x].forced ==> builds[x].forced;
  }

  lemma CloseKeepsCache(c: Shared, p: nat, b: nat)
    requires CacheInv(c, p) && b < p
    ensures CacheInv(c.(builds := c.builds[b := c.builds[b].(done := true)]), p)
  {
  }

  lemma CloseKeepsDrains(cfg: Config, s: State, d: nat)
    requires Inv(cfg, s) && Enabled(s, Close(d))
    ensures DrainInv(cfg, Do(cfg, s, Close(d)))
  {
    var s' := Do(cfg, s, Close(d));
    assert Entered(s.drains[d], s.cache.builds, |s.log|);
    DoneFrame(s.drains, s.drains, s.cache.builds, s'.cache.builds, |s.log|);
    DrainMoves(s.drains, s'.drains, d, s.cache.running, s'.cache.builds, |s.log|);
    forall e | 0 <= e < |s.drains| ensures Entered(s'.drains[e], s'.cache.builds, |s.log|) {
      assert Entered(s.drains[e], s.cache.builds, |s.log|);
    }
    assert InHand(s'.drains, s'.notifier) == InHand(s.drains, s.notifier);
    if s.cache.pending != [] {
      assert WillPop(s'.drains[d]);
    }
  }

  lemma TakeNotifyLockKeeps(cfg: Config, s: State, d: nat)
    requires Inv(cfg, s) && Enabled(s, TakeNotifyLock(d))
    ensures Inv(cfg, Do(cfg, s, TakeNotifyLock(d)))
  {
    var s' := Do(cfg, s, TakeNotifyLock(d));
    DrainMoves(s.drains, s'.drains, d, s.cache.running, s'.cache.builds, |s.log|);
    assert Flushing(s.drains[d]);
    assert WillPop(s'.drains[d]);
  }

  lemma PopKeeps(cfg: Config, s: State, d: nat)
    requires Inv(cfg, s) && Enabled(s, Pop(d))
    ensures Inv(cfg, Do(cfg, s, Pop(d)))
  {
    var s' := Do(cfg, s, Pop(d));
    DrainMoves(s.drains, s'.drains, d, s.cache.running, s'.cache.builds, |s.log|);
    assert s.notifier == Some(d) && Flushing(s.drains[d]);
    if s.cache.pending != [] {
      assert WillPop(s'.drains[d]);
      assert InHand(s'.drains, s'.notifier) == [s.cache.pending[0]];
    }
  }

  lemma TellKeeps(cfg: Config, s: State, d: nat)
    requires Inv(cfg, s) && Enabled(s, Tell(d))
    ensures Inv(cfg, Do(cfg, s, Tell(d)))
  {
    var s' := Do(cfg, s, Tell(d));
    DrainMoves(s.drains, s'.drains, d, s.cache.running, s'.cache.builds, |s.log|);
    assert s.notifier == Some(d) && Flushing(s.drains[d]);
    assert WillPop(s'.drains[d]);
  }

  lemma UnlockKeeps(cfg: Config, s: State, d: nat)
    requires Inv(cfg, s) && Enabled(s, Unlock(d))
    ensures Inv(cfg, Do(cfg, s, Unlock(d)))
  {
    var s' := Do(cfg, s, Unlock(d));
    DrainMoves(s.drains, s'.drains, d, s.cache.running, s'.cache.builds, |s.log|);
    assert s.notifier == Some(d) && Flushing(s.drains[d]);
    if s.cache.pending != [] {
      var e :| 0 <= e < |s.drains| && WillPop(s.drains[e]);
      assert WillPop(s'.drains[e]);
    }
  }

  /** Every step, from any state that satisfies the invariant, keeps it. */
  lemma StepKeeps(cfg: Config, s: State, step: Step)
    requires Inv(cfg, s) && Enabled(s, step)
    ensures Inv(cfg, Do(cfg, s, step))
  {
    match step
    case Tick(_) =>
    case Arrive(forced, probe) => ArriveKeeps(cfg, s, forced, probe);
    case Lock(r) => LockKeeps(cfg, s, r);
    case Wake(r) =>
      var b := s.requests[r].joined.value;
      assert BuildStage(s.cache.builds[b], b, |s.log|);
      MoveKeeps(cfg, s, r, Answered(FromBuild(b, s.cache.builds[b].result.value)));
    case Cancel(r) => MoveKeeps(cfg, s, r, Cancelled);
    case PeekCancelled(r) => MoveKeeps(cfg, s, r, Answered(FromPeek(|s.log|, s.cache.current.GetOr(Empty))));
    case Begin(d) => BeginKeeps(cfg, s, d);
    case Publish(d, out) => PublishKeepsCore(cfg, s, d, out); PublishKeepsDrains(cfg, s, d, out);
    case Close(d) => CloseKeeps(cfg, s, d);
    case TakeNotifyLock(d) => TakeNotifyLockKeeps(cfg, s, d);
    case Pop(d) => PopKeeps(cfg, s, d);
    case Tell(d) => TellKeeps(cfg, s, d);
    case Unlock(d) => UnlockKeeps(cfg, s, d);
  }
}
