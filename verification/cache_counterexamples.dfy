/** Two readings of the cache's comments that its code does not support, each with a reachable state that shows it. */
module CacheCounterexamples {
  import opened Options
  import opened BuildCache
  import opened CacheProtocol
  import opened CacheTheorems

  ghost predicate Reachable(cfg: Config, s: State) {
    exists trace, steps :: IsRun(cfg, trace, steps) && trace[|steps|] == s
  }

  lemma Then(cfg: Config, s: State, step: Step) returns (t: State)
    requires Reachable(cfg, s) && Enabled(s, step)
    ensures t == Do(cfg, s, step) && Reachable(cfg, t)
  {
    t := Do(cfg, s, step);
    var trace, steps :| IsRun(cfg, trace, steps) && trace[|steps|] == s;
    var trace', steps' := trace + [t], steps + [step];
    forall i | 0 <= i < |steps'| ensures Enabled(trace'[i], steps'[i]) && trace'[i + 1] == Do(cfg, trace'[i], steps'[i]) {
      if i < |steps| {
        assert Enabled(trace[i], steps[i]);
      }
    }
    assert IsRun(cfg, trace', steps') && trace'[|steps'|] == t;
  }

  /** A forced request with no override, at the lock or waiting for build `b`. */
  function AtDoor(arrived: int): Request { Request(arrived, true, None, None, AtLock) }
  function WaitsFor(arrived: int, b: nat): Request { Request(arrived, true, None, Some(b), Waiting) }
  function Started(at: int): Build { Build(Some(at), true, None, false, None, None) }
  function Done(at: int, closed: bool): Build { Build(Some(at), true, None, closed, Some(Empty), Some(at)) }
  const FIRST := Notice(None, Empty, true)

  lemma LockStarts(cfg: Config, s: State, r: nat)
    requires Enabled(s, Lock(r)) && s.requests[r].forced && s.cache.queued == [] && s.cache.running == None
    ensures var q, n := s.requests[r], |s.cache.builds|;
      Do(cfg, s, Lock(r)) == s.(
        cache := s.cache.(builds := s.cache.builds + [Build(Some(q.arrived), true, q.probe, false, None, None)], running := Some(n)),
        requests := s.requests[r := q.(joined := Some(n), point := Waiting)], drains := s.drains + [Ready(n)])
  {
  }

  lemma LockQueues(cfg: Config, s: State, r: nat)
    requires Enabled(s, Lock(r)) && s.requests[r].forced && s.cache.queued == [] && s.cache.running.Some?
    requires s.cache.builds[s.cache.running.value].startedAt.value < s.requests[r].arrived
    ensures var q, n := s.requests[r], |s.cache.builds|;
      Do(cfg, s, Lock(r)) == s.(
        cache := s.cache.(builds := s.cache.builds + [Build(None, true, q.probe, false, None, None)], queued := [n]),
        requests := s.requests[r := q.(joined := Some(n), point := Waiting)])
  {
  }

  /** The first two forced requests: the one that arrives second, at `t`, locks first. */
  lemma TwoArrive(cfg: Config, t: nat)
    ensures Reachable(cfg, State(t, Shared([], None, [], None, 0, None, []), [AtDoor(0), AtDoor(t)], [], None, [], []))
  {
    var s := State(0, Shared([], None, [], None, 0, None, []), [], [], None, [], []);
    var none: seq<Step> := [];
    assert IsRun(cfg, [s], none) && [s][|none|] == s;
    s := Then(cfg, s, Arrive(true, None));
    s := Then(cfg, s, Tick(t));
    s := Then(cfg, s, Arrive(true, None));
  }

  lemma SecondStarts(cfg: Config, t: nat)
    ensures Reachable(cfg, State(t, Shared([Started(t)], Some(0), [], None, 0, None, []),
                                 [AtDoor(0), WaitsFor(t, 0)], [Ready(0)], None, [], []))
  {
    TwoArrive(cfg, t);
    var s := State(t, Shared([], None, [], None, 0, None, []), [AtDoor(0), AtDoor(t)], [], None, [], []);
    LockStarts(cfg, s, 1);
    s := Then(cfg, s, Lock(1));
  }

  /** Request 1 starts build 0, which is built and published while request 0 has yet to lock. */
  lemma SecondPublishes(cfg: Config, t: nat)
    ensures Reachable(cfg, State(t,
      Shared([Done(t, false)], None, [], Some(Empty), t, None, if cfg.listening then [FIRST] else []),
      [AtDoor(0), WaitsFor(t, 0)], [Closing(0, None)], None, [FIRST], []))
  {
    SecondStarts(cfg, t);
    var s := State(t, Shared([Started(t)], Some(0), [], None, 0, None, []),
                   [AtDoor(0), WaitsFor(t, 0)], [Ready(0)], None, [], []);
    s := Then(cfg, s, Begin(0));
    s := Then(cfg, s, Publish(0, Empty));
  }

  /** `at` is not monotone: a forced request reads the clock at 0 and is delayed before the lock; another arrives
      at 5, builds and publishes; the first then starts a build stamped 0 while the cache holds one stamped 5. */
  lemma AtMayGoBack(cfg: Config) returns (s: State)
    ensures Reachable(cfg, s) && s.cache.Sound() && s.log != [] && s.cache.running.Some?
    ensures s.cache.builds[s.cache.running.value].startedAt.value < s.cache.at
  {
    SecondPublishes(cfg, 5);
    s := State(5, Shared([Done(5, false)], None, [], Some(Empty), 5, None, if cfg.listening then [FIRST] else []),
               [AtDoor(0), WaitsFor(5, 0)], [Closing(0, None)], None, [FIRST], []);
    LockStarts(cfg, s, 0);
    s := Then(cfg, s, Lock(0));
    assert s.cache.builds == [Done(5, false), Started(0)];
  }

  /** A queued build can be delayed by the listener: the drain that promoted it stands at `notifyMu`, which another
      drain holds while it is inside the callback. */
  ghost predicate DelayedByCallback(s: State, d: nat, e: nat) {
    && d < |s.drains| && e < |s.drains| && d != e
    && s.cache.running.Some? && s.drains[d] == AtNotifyLock(s.cache.running)
    && s.notifier == Some(e) && s.drains[e].Telling?
  }

  /** Drain 0 has published and closed the build. */
  lemma FirstIsClosed(cfg: Config)
    requires cfg.listening
    ensures Reachable(cfg, State(1, Shared([Done(1, true)], None, [], Some(Empty), 1, None, [FIRST]),
      [AtDoor(0), WaitsFor(1, 0)], [AtNotifyLock(None)], None, [FIRST], []))
  {
    SecondPublishes(cfg, 1);
    var s := State(1, Shared([Done(1, false)], None, [], Some(Empty), 1, None, [FIRST]),
                   [AtDoor(0), WaitsFor(1, 0)], [Closing(0, None)], None, [FIRST], []);
    s := Then(cfg, s, Close(0));
    assert s.cache.builds == [Done(1, true)] && s.drains == [AtNotifyLock(None)];
  }

  /** Now it is inside the callback. */
  lemma FirstIsTelling(cfg: Config)
    requires cfg.listening
    ensures Reachable(cfg, State(1, Shared([Done(1, true)], None, [], Some(Empty), 1, None, []),
      [AtDoor(0), WaitsFor(1, 0)], [Telling(None, FIRST)], Some(0), [FIRST], []))
  {
    FirstIsClosed(cfg);
    var s := State(1, Shared([Done(1, true)], None, [], Some(Empty), 1, None, [FIRST]),
                   [AtDoor(0), WaitsFor(1, 0)], [AtNotifyLock(None)], None, [FIRST], []);
    s := Then(cfg, s, TakeNotifyLock(0));
    s := Then(cfg, s, Pop(0));
  }

  function TwoRun(): State {
    State(1, Shared([Done(1, true), Started(0)], Some(1), [], Some(Empty), 1, None, []),
          [WaitsFor(0, 1), WaitsFor(1, 0)], [Telling(None, FIRST), Ready(1)], Some(0), [FIRST], [])
  }

  /** Request 0 starts build 1. */
  lemma SecondRuns(cfg: Config)
    requires cfg.listening
    ensures Reachable(cfg, TwoRun())
  {
    FirstIsTelling(cfg);
    var s := State(1, Shared([Done(1, true)], None, [], Some(Empty), 1, None, []),
                   [AtDoor(0), WaitsFor(1, 0)], [Telling(None, FIRST)], Some(0), [FIRST], []);
    LockStarts(cfg, s, 0);
    s := Then(cfg, s, Lock(0));
    assert s == TwoRun();
  }

  /** A third request has to queue build 2 behind it. */
  lemma ThirdIsQueued(cfg: Config)
    requires cfg.listening
    ensures Reachable(cfg, State(1,
      Shared([Done(1, true), Started(0), Build(None, true, None, false, None, None)], Some(1), [2], Some(Empty), 1, None, []),
      [WaitsFor(0, 1), WaitsFor(1, 0), WaitsFor(1, 2)], [Telling(None, FIRST), Ready(1)], Some(0), [FIRST], []))
  {
    SecondRuns(cfg);
    var s := Then(cfg, TwoRun(), Arrive(true, None));
    LockQueues(cfg, s, 2);
    s := Then(cfg, s, Lock(2));
  }

  lemma PromotedBuildMayWaitForACallback(cfg: Config) returns (s: State)
    requires cfg.listening
    ensures Reachable(cfg, s) && DelayedByCallback(s, 1, 0)
  {
    ThirdIsQueued(cfg);
    s := State(1,
      Shared([Done(1, true), Started(0), Build(None, true, None, false, None, None)], Some(1), [2], Some(Empty), 1, None, []),
      [WaitsFor(0, 1), WaitsFor(1, 0), WaitsFor(1, 2)], [Telling(None, FIRST), Ready(1)], Some(0), [FIRST], []);
    s := Then(cfg, s, Begin(1));
    s := Then(cfg, s, Publish(1, Empty));
    assert s.cache.running == Some(2) && s.drains == [Telling(None, FIRST), Closing(1, Some(2))];
    s := Then(cfg, s, Close(1));
  }
}
