/** What `Get` decides under the lock, in every reachable state, told by the publications, the builds and the request
    alone: builds are published in the order they were created, so those before `|log|` are published, build `|log|`
    runs, and those after it are queued. */
module CacheAdmission {
  import opened Options
  import opened BuildCache
  import opened CacheProtocol
  import opened CacheCounterexamples
  import opened CacheDelay

  /** A request for `want`, or for nothing in particular, is content with a build that ran with `has`. */
  predicate Content(want: Option<bool>, has: Option<bool>) { want.None? || want == has }

  ghost predicate QueuedSuits(s: State, q: Request, b: nat) {
    |s.log| < b < |s.cache.builds| && Content(q.probe, s.cache.builds[b].probe)
  }

  ghost predicate SomeQueuedSuits(s: State, q: Request) { exists b: nat :: QueuedSuits(s, q, b) }

  /** The running build suits, and a forced request arrived no later than it was stamped. */
  ghost predicate RunningServes(s: State, q: Request) {
    && |s.log| < |s.cache.builds|
    && var b := s.cache.builds[|s.log|];
    Content(q.probe, b.probe) && (q.forced ==> b.startedAt.Some? && q.arrived <= b.startedAt.value)
  }

  /** Something is published, the last of it is younger than the TTL, and it suits an unforced request. */
  ghost predicate LastServes(cfg: Config, s: State, q: Request) {
    && !q.forced && 0 < |s.log| <= |s.cache.builds|
    && var last := s.cache.builds[|s.log| - 1];
    && last.startedAt.Some? && cfg.ttl > 0 && q.arrived - last.startedAt.value < cfg.ttl
    && Content(q.probe, last.probe)
  }

  /** The request waits on build `b`, which is marked forced if the request was; nothing else is different. */
  ghost predicate Joins(s: State, r: nat, b: nat, t: State)
    requires r < |s.requests| && b < |s.cache.builds|
  {
    var q := s.requests[r];
    var builds := s.cache.builds[b := s.cache.builds[b].(forced := s.cache.builds[b].forced || q.forced)];
    t == s.(cache := s.cache.(builds := builds), requests := s.requests[r := q.(joined := Some(b), point := Waiting)])
  }

  /** The request is answered in this step with the last publication; nothing else is different. */
  ghost predicate Serves(s: State, r: nat, t: State)
    requires r < |s.requests| && s.log != []
  {
    var n := |s.log| - 1;
    t == s.(requests := s.requests[r := s.requests[r].(point := Answered(FromHeld(n, s.log[n].current)))])
  }

  /** A new build, with the request's override and mark, that the request waits on: queued last behind a running one, and
      otherwise started at once, stamped with the arrival, by a drain of its own. */
  ghost predicate Creates(s: State, r: nat, t: State)
    requires r < |s.requests|
  {
    var q, n, idle := s.requests[r], |s.cache.builds|, |s.log| == |s.cache.builds|;
    && t.cache.builds == s.cache.builds + [Build(if idle then Some(q.arrived) else None, q.forced, q.probe, false, None, None)]
    && t.cache == s.cache.(builds := t.cache.builds, running := if idle then Some(n) else s.cache.running,
                           queued := if idle then s.cache.queued else s.cache.queued + [n])
    && t == s.(cache := t.cache, requests := s.requests[r := q.(joined := Some(n), point := Waiting)],
               drains := if idle then s.drains + [Ready(n)] else s.drains)
  }

  // ---------------------------------------------------------------------------
  // The proof
  // ---------------------------------------------------------------------------

  lemma QueueIsTheTail(c: Shared, p: nat, want: Option<bool>)
    requires c.Sound() && LineInv(c, p)
    ensures FirstSuiting(c, want, 0) < |c.queued| ==>
      && c.queued[FirstSuiting(c, want, 0)] == p + 1 + FirstSuiting(c, want, 0) < |c.builds|
      && Content(want, c.builds[p + 1 + FirstSuiting(c, want, 0)].probe)
    ensures forall b :: p < b < |c.builds| && b < p + 1 + FirstSuiting(c, want, 0) ==> !Content(want, c.builds[b].probe)
  {
    var k := FirstSuiting(c, want, 0);
    forall b | p < b < |c.builds| && b < p + 1 + k ensures !Content(want, c.builds[b].probe) {
      assert c.queued[b - p - 1] == b && !SuitsQueued(c, want, b - p - 1);
    }
  }

  lemma RunningIs(cfg: Config, s: State, r: nat)
    requires Inv(cfg, s) && r < |s.requests| && s.cache.Sound()
    ensures var q := s.requests[r]; RunningSuits(s.cache, q.arrived, q.forced, q.probe) <==> RunningServes(s, q)
    ensures s.cache.running == if |s.log| < |s.cache.builds| then Some(|s.log|) else None
  {
    if |s.log| < |s.cache.builds| {
      assert BuildStage(s.cache.builds[|s.log|], |s.log|, |s.log|);
    }
  }

  lemma LastIs(cfg: Config, s: State, r: nat)
    requires Inv(cfg, s) && r < |s.requests|
    ensures var q := s.requests[r];
      (!q.forced && Fresh(cfg, s.cache, q.arrived) && ProbeSuits(q.probe, s.cache.probe)) <==> LastServes(cfg, s, q)
    ensures s.log != [] ==> s.cache.current == Some(s.log[|s.log| - 1].current)
  {
    var p := |s.log|;
    if p > 0 {
      assert BuildStage(s.cache.builds[p - 1], p - 1, p);
      assert s.log[p - 1] == NoticeOf(s.cache.builds, p - 1);
    }
  }

  lemma NothingToMark(c: Shared, b: nat)
    requires b < |c.builds|
    ensures c.(builds := c.builds[b := c.builds[b].(forced := c.builds[b].forced || false)]) == c
  {
    assert c.builds[b := c.builds[b].(forced := c.builds[b].forced || false)] == c.builds;
  }

  lemma JoiningJoins(cfg: Config, s: State, r: nat, b: nat)
    requires Enabled(s, Lock(r)) && b < |s.cache.builds|
    requires var q := s.requests[r]; Admit(cfg, s.cache, q.arrived, q.forced, q.probe) == (Joining(s.cache, b, q.forced), Join(b))
    ensures Joins(s, r, b, Do(cfg, s, Lock(r)))
  {
    NothingToMark(s.cache, b);
  }

  lemma CreatingCreates(cfg: Config, s: State, r: nat)
    requires Inv(cfg, s) && Enabled(s, Lock(r))
    requires var q := s.requests[r];
      && FirstSuiting(s.cache, q.probe, 0) == |s.cache.queued| && !RunningSuits(s.cache, q.arrived, q.forced, q.probe)
      && !(!q.forced && Fresh(cfg, s.cache, q.arrived) && ProbeSuits(q.probe, s.cache.probe))
    ensures Creates(s, r, Do(cfg, s, Lock(r)))
  {
    RunningIs(cfg, s, r);
  }

  // ---------------------------------------------------------------------------
  // The four answers
  // ---------------------------------------------------------------------------

  /** A request that takes the lock joins the first queued build that suits it; else the running one if that serves; else
      it is given what was last published if that serves; and a build is created exactly when none of the three does. */
  lemma LockDecides(cfg: Config, s: State, r: nat)
    requires Reachable(cfg, s) && Enabled(s, Lock(r))
    ensures var q, t := s.requests[r], Do(cfg, s, Lock(r));
      if SomeQueuedSuits(s, q) then
        exists b: nat :: QueuedSuits(s, q, b) && (forall a: nat :: QueuedSuits(s, q, a) ==> b <= a) && Joins(s, r, b, t)
      else if RunningServes(s, q) then Joins(s, r, |s.log|, t)
      else if LastServes(cfg, s, q) then Serves(s, r, t)
      else Creates(s, r, t)
  {
    ReachableInv(cfg, s);
    var q, p := s.requests[r], |s.log|;
    var k := FirstSuiting(s.cache, q.probe, 0);
    QueueIsTheTail(s.cache, p, q.probe);
    RunningIs(cfg, s, r);
    LastIs(cfg, s, r);
    if k < |s.cache.queued| {
      assert QueuedSuits(s, q, p + 1 + k);
      JoiningJoins(cfg, s, r, p + 1 + k);
    } else {
      assert forall b: nat :: !QueuedSuits(s, q, b);
      if RunningServes(s, q) {
        JoiningJoins(cfg, s, r, p);
      } else if !LastServes(cfg, s, q) {
        CreatingCreates(cfg, s, r);
      }
    }
  }

  /** The build published last. */
  ghost function Last(s: State): Build {
    if 0 < |s.log| <= |s.cache.builds| then s.cache.builds[|s.log| - 1] else Build(None, false, None, false, None, None)
  }

  /** At least the TTL has passed since it was stamped; without a TTL that is always so. */
  ghost predicate TooOld(cfg: Config, q: Request, b: Build) {
    cfg.ttl <= 0 || q.arrived - b.startedAt.GetOr(0) >= cfg.ttl
  }

  /** So a build is created exactly when no queued build suits the override, no running build suits it and is late enough
      for a forced request, and the request is forced, or nothing is published, or what was last published is as old as
      the TTL or ran with an override that does not suit. */
  lemma CreatesExactly(cfg: Config, s: State, r: nat)
    requires Reachable(cfg, s) && Enabled(s, Lock(r))
    ensures var q := s.requests[r];
      |Do(cfg, s, Lock(r)).cache.builds| > |s.cache.builds| <==>
        && (forall b :: |s.log| < b < |s.cache.builds| ==> !Content(q.probe, s.cache.builds[b].probe))
        && !RunningServes(s, q)
        && (q.forced || s.log == [] || TooOld(cfg, q, Last(s)) || !Content(q.probe, Last(s).probe))
  {
    ReachableInv(cfg, s);
    LockDecides(cfg, s, r);
    var q, p := s.requests[r], |s.log|;
    if p > 0 {
      assert BuildStage(s.cache.builds[p - 1], p - 1, p);
    }
    assert forall b: nat :: p < b < |s.cache.builds| && Content(q.probe, s.cache.builds[b].probe) ==> QueuedSuits(s, q, b);
  }
}
