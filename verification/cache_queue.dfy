/** How long the queue of labview/internal/cache/cache.go gets. The package comment speaks of at most two builds at any
    moment, the one running and the one queued; the code queues up to three. */
module CacheQueue {
  import opened Options
  import opened BuildCache
  import opened CacheProtocol
  import opened CacheInvariant
  import opened CacheTheorems
  import opened CacheCounterexamples

  // ---------------------------------------------------------------------------
  // Three queued builds
  // ---------------------------------------------------------------------------

  function Asks(probe: Option<bool>): Request { Request(1, true, probe, None, AtLock) }
  function Waits(probe: Option<bool>, b: nat): Request { Request(1, true, probe, Some(b), Waiting) }
  function Queued(probe: Option<bool>): Build { Build(None, true, probe, false, None, None) }

  /** One build runs, stamped 0, and three forced requests arrive later with the three overrides there are. */
  function Before(): State {
    State(1, Shared([Started(0)], Some(0), [], None, 0, None, []),
          [WaitsFor(0, 0), Asks(None), Asks(Some(true)), Asks(Some(false))], [Ready(0)], None, [], [])
  }

  function Running(): State {
    State(0, Shared([Started(0)], Some(0), [], None, 0, None, []), [WaitsFor(0, 0)], [Ready(0)], None, [], [])
  }

  lemma RunningIsReachable(cfg: Config)
    ensures Reachable(cfg, Running())
  {
    var s := State(0, Shared([], None, [], None, 0, None, []), [], [], None, [], []);
    var none: seq<Step> := [];
    assert IsRun(cfg, [s], none) && [s][|none|] == s;
    s := Then(cfg, s, Arrive(true, None));
    LockStarts(cfg, s, 0);
    s := Then(cfg, s, Lock(0));
    assert s == Running();
  }

  lemma BeforeIsReachable(cfg: Config)
    ensures Reachable(cfg, Before())
  {
    RunningIsReachable(cfg);
    var s := Then(cfg, Running(), Tick(1));
    s := Then(cfg, s, Arrive(true, None));
    s := Then(cfg, s, Arrive(true, Some(true)));
    s := Then(cfg, s, Arrive(true, Some(false)));
    assert s == Before();
  }

  /** A forced request that neither a queued build nor the running one may answer queues a build of its own. */
  lemma LockAppends(cfg: Config, s: State, r: nat)
    requires Enabled(s, Lock(r)) && s.requests[r].forced && s.cache.running.Some?
    requires FirstSuiting(s.cache, s.requests[r].probe, 0) == |s.cache.queued|
    requires s.cache.builds[s.cache.running.value].startedAt.value < s.requests[r].arrived
    ensures var q, n := s.requests[r], |s.cache.builds|;
      Do(cfg, s, Lock(r)) == s.(
        cache := s.cache.(builds := s.cache.builds + [Queued(q.probe)], queued := s.cache.queued + [n]),
        requests := s.requests[r := q.(joined := Some(n), point := Waiting)])
  {
  }

  function One(): State {
    Before().(
      cache := Shared([Started(0), Queued(None)], Some(0), [1], None, 0, None, []),
      requests := [WaitsFor(0, 0), Waits(None, 1), Asks(Some(true)), Asks(Some(false))])
  }

  function Two(): State {
    Before().(
      cache := Shared([Started(0), Queued(None), Queued(Some(true))], Some(0), [1, 2], None, 0, None, []),
      requests := [WaitsFor(0, 0), Waits(None, 1), Waits(Some(true), 2), Asks(Some(false))])
  }

  lemma OneIsReachable(cfg: Config)
    ensures Reachable(cfg, One())
  {
    BeforeIsReachable(cfg);
    LockAppends(cfg, Before(), 1);
    var s := Then(cfg, Before(), Lock(1));
    assert s == One();
  }

  lemma TwoIsReachable(cfg: Config)
    ensures Reachable(cfg, Two())
  {
    OneIsReachable(cfg);
    LockAppends(cfg, One(), 2);
    var s := Then(cfg, One(), Lock(2));
    assert s == Two();
  }

  /** The bound of three is met: four builds at one moment. */
  lemma QueueCanHoldThree(cfg: Config) returns (s: State)
    ensures Reachable(cfg, s) && s.cache.running.Some? && |s.cache.queued| == 3
  {
    TwoIsReachable(cfg);
    LockAppends(cfg, Two(), 3);
    s := Then(cfg, Two(), Lock(3));
  }

  // ---------------------------------------------------------------------------
  // When it holds more than one
  // ---------------------------------------------------------------------------

  /** The request created the build or asked for its very override. */
  ghost predicate AskedFor(requests: seq<Request>, builds: seq<Build>, r: nat, b: nat) {
    r < |requests| && b < |builds| && requests[r].joined == Some(b) && requests[r].probe == builds[b].probe
  }

  ghost predicate Asked(requests: seq<Request>, builds: seq<Build>, b: nat) {
    exists r: nat :: AskedFor(requests, builds, r, b)
  }

  /** Every build runs with the override of some request that joined it. */
  ghost predicate AllAsked(requests: seq<Request>, builds: seq<Build>) {
    forall b: nat :: b < |builds| ==> Asked(requests, builds, b)
  }

  /** A request keeps what it asked for and, once it has joined, what it joined. */
  ghost predicate SameAsk(q: Request, q': Request) {
    q'.probe == q.probe && (q.joined.Some? ==> q'.joined == q.joined)
  }

  ghost predicate KeepsAsks(requests: seq<Request>, requests': seq<Request>) {
    |requests| <= |requests'| && forall r :: 0 <= r < |requests| ==> SameAsk(requests[r], requests'[r])
  }

  ghost predicate KeepsOverrides(builds: seq<Build>, builds': seq<Build>) {
    |builds| <= |builds'| && forall b :: 0 <= b < |builds| ==> builds'[b].probe == builds[b].probe
  }

  lemma StepKeepsAsks(cfg: Config, s: State, step: Step)
    requires Enabled(s, step) && (step.Lock? ==> s.requests[step.r].joined == None)
    ensures KeepsAsks(s.requests, Do(cfg, s, step).requests)
  {
  }

  lemma StepKeepsOverrides(cfg: Config, s: State, step: Step)
    requires Enabled(s, step)
    ensures KeepsOverrides(s.cache.builds, Do(cfg, s, step).cache.builds)
  {
  }

  /** Only a lock creates a build, for the request that takes it. */
  lemma NewBuildIsAskedFor(cfg: Config, s: State, step: Step, b: nat)
    requires Enabled(s, step) && |s.cache.builds| <= b < |Do(cfg, s, step).cache.builds|
    ensures step.Lock? && AskedFor(Do(cfg, s, step).requests, Do(cfg, s, step).cache.builds, step.r, b)
  {
  }

  lemma AskedStays(requests: seq<Request>, requests': seq<Request>, builds: seq<Build>, builds': seq<Build>, b: nat)
    requires KeepsAsks(requests, requests') && KeepsOverrides(builds, builds') && Asked(requests, builds, b)
    ensures Asked(requests', builds', b)
  {
    var r: nat :| AskedFor(requests, builds, r, b);
    assert SameAsk(requests[r], requests'[r]);
    assert AskedFor(requests', builds', r, b);
  }

  lemma StepKeepsAsked(cfg: Config, s: State, step: Step, b: nat)
    requires Inv(cfg, s) && Enabled(s, step) && AllAsked(s.requests, s.cache.builds) && b < |Do(cfg, s, step).cache.builds|
    ensures Asked(Do(cfg, s, step).requests, Do(cfg, s, step).cache.builds, b)
  {
    if b < |s.cache.builds| {
      if step.Lock? {
        assert RequestInv(cfg, s.cache.builds, |s.log|, s.requests[step.r]);
      }
      StepKeepsAsks(cfg, s, step);
      StepKeepsOverrides(cfg, s, step);
      AskedStays(s.requests, Do(cfg, s, step).requests, s.cache.builds, Do(cfg, s, step).cache.builds, b);
    } else {
      NewBuildIsAskedFor(cfg, s, step, b);
    }
  }

  lemma {:induction false} RunAsked(cfg: Config, trace: seq<State>, steps: seq<Step>, i: nat)
    requires IsRun(cfg, trace, steps) && i < |trace|
    ensures AllAsked(trace[i].requests, trace[i].cache.builds)
  {
    if i > 0 {
      RunAsked(cfg, trace, steps, i - 1);
      RunInv(cfg, trace, steps, i - 1);
      forall b: nat | b < |trace[i].cache.builds| ensures Asked(trace[i].requests, trace[i].cache.builds, b) {
        StepKeepsAsked(cfg, trace[i - 1], steps[i - 1], b);
      }
    }
  }

  ghost predicate InQueue(s: State, r: nat) {
    r < |s.requests| && s.requests[r].joined.Some? && s.requests[r].joined.value in s.cache.queued
      && s.requests[r].joined.value < |s.cache.builds|
  }

  /** Two requests wait on queued builds, and the one names an override the other's build does not run with. */
  ghost predicate Disagree(s: State, r: nat, t: nat) {
    && InQueue(s, r) && InQueue(s, t) && s.requests[t].probe.Some?
    && !ProbeSuits(s.requests[t].probe, s.cache.builds[s.requests[r].joined.value].probe)
  }

  lemma TwoQueuedDisagree(cfg: Config, s: State, a: nat, b: nat)
    requires AllAsked(s.requests, s.cache.builds) && a in s.cache.queued && b in s.cache.queued
    requires a < |s.cache.builds| && b < |s.cache.builds|
    requires s.cache.builds[b].probe.Some? && s.cache.builds[a].probe != s.cache.builds[b].probe
    ensures exists r: nat, t: nat :: Disagree(s, r, t)
  {
    assert Asked(s.requests, s.cache.builds, a) && Asked(s.requests, s.cache.builds, b);
    var r: nat :| AskedFor(s.requests, s.cache.builds, r, a);
    var t: nat :| AskedFor(s.requests, s.cache.builds, t, b);
    assert Disagree(s, r, t);
  }

  lemma DisagreeingAreTwo(cfg: Config, s: State, r: nat, t: nat)
    requires Inv(cfg, s) && Disagree(s, r, t)
    ensures |s.cache.queued| > 1
  {
    assert RequestInv(cfg, s.cache.builds, |s.log|, s.requests[t]);
    assert s.requests[r].joined.value != s.requests[t].joined.value;
  }

  /** The queue holds more than one build exactly when two requests that joined queued builds disagree about the probe. */
  lemma QueueExceedsOneExactly(cfg: Config, trace: seq<State>, steps: seq<Step>, i: nat)
    requires IsRun(cfg, trace, steps) && i < |trace|
    ensures |trace[i].cache.queued| > 1 <==> exists r: nat, t: nat :: Disagree(trace[i], r, t)
  {
    var s := trace[i];
    RunInv(cfg, trace, steps, i);
    if |s.cache.queued| > 1 {
      OneBuildAtATime(cfg, trace, steps, i);
      RunAsked(cfg, trace, steps, i);
      TwoQueuedDisagree(cfg, s, s.cache.queued[0], s.cache.queued[1]);
    }
    if r: nat, t: nat :| Disagree(s, r, t) {
      DisagreeingAreTwo(cfg, s, r, t);
    }
  }
}
