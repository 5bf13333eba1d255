/** What the cache promises, over every run of the protocol: the forced-request rule, one build at a time in
    arrival order, where each reply came from, exactly-once delivery in publication order, and that every
    waiter is answered. */
module CacheTheorems {
  import opened Options
  import opened BuildCache
  import opened CacheProtocol
  import opened CacheInvariant

  /** `steps` is a run through the states of `trace`. */
  ghost predicate IsRun(cfg: Config, trace: seq<State>, steps: seq<Step>) {
    && |trace| == |steps| + 1 && Init(trace[0])
    && forall i :: 0 <= i < |steps| ==> Enabled(trace[i], steps[i]) && trace[i + 1] == Do(cfg, trace[i], steps[i])
  }

  lemma {:induction false} RunInv(cfg: Config, trace: seq<State>, steps: seq<Step>, i: nat)
    requires IsRun(cfg, trace, steps) && i < |trace|
    ensures Inv(cfg, trace[i])
  {
    if i > 0 {
      RunInv(cfg, trace, steps, i - 1);
      StepKeeps(cfg, trace[i - 1], steps[i - 1]);
    }
  }

  // ---------------------------------------------------------------------------
  // The forced-request rule
  // ---------------------------------------------------------------------------

  /** Step `j` of the run entered the build function for build `b` when the clock read `t`. */
  ghost predicate EnteredAt(trace: seq<State>, steps: seq<Step>, j: nat, b: nat, t: int) {
    && j < |steps| && j < |trace| && steps[j].Begin?
    && steps[j].d < |trace[j].drains| && trace[j].drains[steps[j].d] == Ready(b) && trace[j].clock == t
  }

  lemma {:induction false} BeganIsHonest(cfg: Config, trace: seq<State>, steps: seq<Step>, i: nat, b: nat)
    requires IsRun(cfg, trace, steps) && i < |trace|
    requires b < |trace[i].cache.builds| && trace[i].cache.builds[b].began.Some?
    ensures exists j: nat :: j < i && EnteredAt(trace, steps, j, b, trace[i].cache.builds[b].began.value)
  {
    if i > 0 {
      var s, step := trace[i - 1], steps[i - 1];
      RunInv(cfg, trace, steps, i - 1);
      if b < |s.cache.builds| && s.cache.builds[b].began == trace[i].cache.builds[b].began {
        BeganIsHonest(cfg, trace, steps, i - 1, b);
      } else {
        BeganOnlyByBegin(cfg, s, step, b);
        assert EnteredAt(trace, steps, i - 1, b, s.clock);
      }
    }
  }

  lemma BeganOnlyByBegin(cfg: Config, s: State, step: Step, b: nat)
    requires Enabled(s, step)
    requires b < |Do(cfg, s, step).cache.builds| && Do(cfg, s, step).cache.builds[b].began.Some?
    requires b < |s.cache.builds| ==> s.cache.builds[b].began != Do(cfg, s, step).cache.builds[b].began
    ensures step.Begin? && step.d < |s.drains| && s.drains[step.d] == Ready(b) && Do(cfg, s, step).cache.builds[b].began == Some(s.clock)
  {
  }

  /** A forced request that was not cancelled is answered with the result of a build whose `startedAt`, and whose
      real entry into the build function, are no earlier than the request's arrival. */
  lemma ForcedIsAnsweredByALaterBuild(cfg: Config, trace: seq<State>, steps: seq<Step>, i: nat, r: nat)
    requires IsRun(cfg, trace, steps) && i < |trace| && r < |trace[i].requests|
    requires var q := trace[i].requests[r]; q.forced && q.point.Answered? && !q.point.reply.FromPeek?
    ensures var q := trace[i].requests[r];
      && q.point.reply.FromBuild?
      && var id := q.point.reply.b;
      && id < |trace[i].log| <= |trace[i].cache.builds| && trace[i].log[id].current == q.point.reply.out
      && var b := trace[i].cache.builds[id];
      && b.startedAt.Some? && q.arrived <= b.startedAt.value
      && exists j: nat, t: int :: j < i && b.startedAt.value <= t && EnteredAt(trace, steps, j, id, t)
  {
    RunInv(cfg, trace, steps, i);
    var s := trace[i];
    var q := s.requests[r];
    assert RequestInv(cfg, s.cache.builds, |s.log|, q);
    var id := q.point.reply.b;
    assert s.log[id] == NoticeOf(s.cache.builds, id);
    assert BuildStage(s.cache.builds[id], id, |s.log|) && BuildClock(s.cache.builds[id], s.clock);
    BeganIsHonest(cfg, trace, steps, i, id);
  }

  // ---------------------------------------------------------------------------
  // One build at a time, in arrival order
  // ---------------------------------------------------------------------------

  /** Never two builds at once; a queue only behind a running build, which exactly one drain owns; and at most
      three queued builds, for pairwise different overrides, with no override only at the head. */
  lemma OneBuildAtATime(cfg: Config, trace: seq<State>, steps: seq<Step>, i: nat)
    requires IsRun(cfg, trace, steps) && i < |trace|
    ensures var s := trace[i];
      && s.cache.Sound()
      && (forall d, e :: 0 <= d < |s.drains| && 0 <= e < |s.drains| && s.drains[d].Building? && s.drains[e].Building? ==> d == e)
      && (s.cache.queued != [] ==> s.cache.running.Some?)
      && (forall d: nat, e: nat :: Owner(s.drains, d) && Owner(s.drains, e) ==> d == e)
      && (s.cache.running.Some? ==> exists d: nat :: Owner(s.drains, d))
      && (forall d: nat :: Owner(s.drains, d) ==> Owned(s.drains[d]) == s.cache.running)
    ensures var c := trace[i].cache;
      && |c.queued| <= 3
      && (forall j, k :: 0 <= j < k < |c.queued| ==>
            c.builds[c.queued[k]].probe.Some? && c.builds[c.queued[j]].probe != c.builds[c.queued[k]].probe)
  {
    RunInv(cfg, trace, steps, i);
    var s := trace[i];
    assert forall d: nat :: d < |s.drains| && s.drains[d].Building? ==> Owner(s.drains, d);
    var c, p := s.cache, |s.log|;
    forall j, k | 0 <= j < k < |c.queued|
      ensures c.builds[c.queued[k]].probe.Some? && c.builds[c.queued[j]].probe != c.builds[c.queued[k]].probe
    {
      assert c.queued[j] == p + 1 + j && c.queued[k] == p + 1 + k;
    }
    ThreeAtMost(|c.queued|, (k: nat) => if k < |c.queued| && c.queued[k] < |c.builds| then c.builds[c.queued[k]].probe else None);
  }

  lemma ThreeAtMost(n: nat, probe: nat -> Option<bool>)
    requires forall k: nat :: 0 < k < n ==> probe(k).Some?
    requires forall j: nat, k: nat :: j < k < n ==> probe(j) != probe(k)
    ensures n <= 3
  {
    OnlyTwoOverrides(probe(1), probe(2), probe(3));
  }

  lemma OnlyTwoOverrides(x: Option<bool>, y: Option<bool>, z: Option<bool>)
    ensures x == y || x == z || y == z || x.None? || y.None? || z.None?
  {
    if x.Some? && y.Some? && z.Some? {
      assert x.value == y.value || x.value == z.value || y.value == z.value;
    }
  }

  lemma LogGrows(cfg: Config, s: State, step: Step)
    requires Enabled(s, step)
    ensures |s.log| <= |Do(cfg, s, step).log|
  {
  }

  lemma BuildsGrow(cfg: Config, s: State, step: Step)
    requires Enabled(s, step)
    ensures |s.cache.builds| <= |Do(cfg, s, step).cache.builds|
  {
  }

  lemma StepGrows(cfg: Config, trace: seq<State>, steps: seq<Step>, i: nat)
    requires IsRun(cfg, trace, steps) && i < |steps|
    ensures |trace[i].log| <= |trace[i + 1].log| && |trace[i].cache.builds| <= |trace[i + 1].cache.builds|
  {
    LogGrows(cfg, trace[i], steps[i]);
    BuildsGrow(cfg, trace[i], steps[i]);
  }

  lemma {:induction false} RunGrows(cfg: Config, trace: seq<State>, steps: seq<Step>, i: nat, j: nat)
    requires IsRun(cfg, trace, steps) && i <= j < |trace|
    ensures |trace[i].log| <= |trace[j].log| && |trace[i].cache.builds| <= |trace[j].cache.builds|
    decreases j
  {
    if i < j {
      RunGrows(cfg, trace, steps, i, j - 1);
      StepGrows(cfg, trace, steps, j - 1);
    }
  }

  /** A build at queue position `k` moves up one place at every publish, is running after the `(k+1)`-th, and is
      the next one published after that: it is neither overtaken nor stranded. */
  lemma QueueIsFirstInFirstOut(cfg: Config, trace: seq<State>, steps: seq<Step>, i: nat, j: nat, k: nat)
    requires IsRun(cfg, trace, steps) && i <= j < |trace| && k < |trace[i].cache.queued|
    ensures |trace[i].log| <= |trace[j].log|
    ensures var b, n, c := trace[i].cache.queued[k], |trace[j].log| - |trace[i].log|, trace[j].cache;
      && (n <= k ==> k - n < |c.queued| && c.queued[k - n] == b)
      && (n == k + 1 <==> c.running == Some(b))
      && (n > k + 1 <==> b < |trace[j].log|)
      && b == |trace[i].log| + k + 1
  {
    RunInv(cfg, trace, steps, i);
    RunInv(cfg, trace, steps, j);
    RunGrows(cfg, trace, steps, i, j);
  }

  /** A build starts with an earlier stamp than the one held exactly when a request that arrived before the
      held build started takes the lock and starts it directly: `at` can go back only that way. */
  lemma AtGoesBackOnlyByALateLock(cfg: Config, s: State, step: Step)
    requires Inv(cfg, s) && Enabled(s, step)
    requires var s' := Do(cfg, s, step); s'.cache.running.Some? && s'.cache.running != s.cache.running && |s'.log| > 0
    ensures var s' := Do(cfg, s, step);
      && s'.cache.Sound()
      && (s'.cache.builds[s'.cache.running.value].startedAt.value < s'.cache.at
          <==> step.Lock? && s.requests[step.r].arrived < s.cache.at)
  {
    StartsByLockOrPublish(cfg, s, step);
    if step.Publish? {
      PublishStartsNow(cfg, s, step.d, step.out);
    } else {
      LockStartsAtArrival(cfg, s, step.r);
    }
  }

  lemma StartsByLockOrPublish(cfg: Config, s: State, step: Step)
    requires Enabled(s, step)
    requires var s' := Do(cfg, s, step); s'.cache.running.Some? && s'.cache.running != s.cache.running
    ensures step.Lock? || step.Publish?
  {
  }

  lemma PublishStartsNow(cfg: Config, s: State, d: nat, out: Overview)
    requires Inv(cfg, s) && Enabled(s, Publish(d, out)) && Do(cfg, s, Publish(d, out)).cache.running.Some?
    ensures var c := Do(cfg, s, Publish(d, out)).cache; c.Sound() && c.builds[c.running.value].startedAt.value >= c.at
  {
    assert Owner(s.drains, d);
    assert BuildClock(s.cache.builds[s.drains[d].b], s.clock);
  }

  lemma LockStartsAtArrival(cfg: Config, s: State, r: nat)
    requires Enabled(s, Lock(r))
    requires var c := Do(cfg, s, Lock(r)).cache; c.running.Some? && c.running != s.cache.running
    ensures var c := Do(cfg, s, Lock(r)).cache;
      c.Sound() && c.builds[c.running.value].startedAt == Some(s.requests[r].arrived) && c.at == s.cache.at
  {
  }

  // ---------------------------------------------------------------------------
  // Where replies and marks come from
  // ---------------------------------------------------------------------------

  /** An uncancelled reply is the result of a published build that suits the override asked for, either waited on or
      held; a held one answers only an unforced request younger than the TTL. A cancelled caller gets the newest
      build published when it looked, or the zero payload. */
  lemma ReplyProvenance(cfg: Config, trace: seq<State>, steps: seq<Step>, i: nat, r: nat)
    requires IsRun(cfg, trace, steps) && i < |trace| && r < |trace[i].requests| && trace[i].requests[r].point.Answered?
    ensures var s, q := trace[i], trace[i].requests[r];
      match q.point.reply
      case FromPeek(k, out) => k <= |s.log| && out == (if k == 0 then Empty else s.log[k - 1].current)
      case FromBuild(b, out) =>
        b < |s.log| <= |s.cache.builds| && out == s.log[b].current && (q.probe.Some? ==> s.cache.builds[b].probe == q.probe)
      case FromHeld(b, out) =>
        && b < |s.log| <= |s.cache.builds| && out == s.log[b].current && (q.probe.Some? ==> s.cache.builds[b].probe == q.probe)
        && !q.forced && s.cache.builds[b].startedAt.Some? && q.arrived - s.cache.builds[b].startedAt.value < cfg.ttl
  {
    RunInv(cfg, trace, steps, i);
    var s, q := trace[i], trace[i].requests[r];
    assert RequestInv(cfg, s.cache.builds, |s.log|, q);
    forall b: nat | b < |s.log| ensures s.log[b] == NoticeOf(s.cache.builds, b) {}
  }

  /** `current`, `at` and `probe` always describe the latest published build. */
  lemma HeldIsTheLatest(cfg: Config, trace: seq<State>, steps: seq<Step>, i: nat)
    requires IsRun(cfg, trace, steps) && i < |trace|
    ensures var s := trace[i];
      if s.log == [] then s.cache.current == None
      else
        && |s.log| <= |s.cache.builds|
        && var last := s.cache.builds[|s.log| - 1];
        && s.cache.current == Some(s.log[|s.log| - 1].current) == last.result
        && last.startedAt == Some(s.cache.at) && s.cache.probe == last.probe
  {
    RunInv(cfg, trace, steps, i);
    var s := trace[i];
    if s.log != [] {
      assert s.log[|s.log| - 1] == NoticeOf(s.cache.builds, |s.log| - 1);
    }
  }

  /** The publication history: each entry's `previous` is the entry before it, and it is marked forced exactly when
      some forced request created or joined its build. */
  lemma LogIsFaithful(cfg: Config, trace: seq<State>, steps: seq<Step>, i: nat, b: nat)
    requires IsRun(cfg, trace, steps) && i < |trace| && b < |trace[i].log|
    ensures var s := trace[i];
      && s.log[b].previous == (if b == 0 then None else Some(s.log[b - 1].current))
      && (s.log[b].forced <==> exists r: nat :: ForcedBy(s.requests, r, b))
  {
    RunInv(cfg, trace, steps, i);
    var s := trace[i];
    assert s.log[b] == NoticeOf(s.cache.builds, b);
    if b > 0 {
      assert s.log[b - 1] == NoticeOf(s.cache.builds, b - 1);
    }
    forall r: nat | ForcedBy(s.requests, r, b) ensures s.log[b].forced {
      assert RequestInv(cfg, s.cache.builds, |s.log|, s.requests[r]);
    }
  }

  // ---------------------------------------------------------------------------
  // The listener
  // ---------------------------------------------------------------------------

  /** What was told, what is in hand and what is pending make up the publication history, in order; and whatever is
      pending has a drain that will still look. */
  lemma DeliveryIsExact(cfg: Config, trace: seq<State>, steps: seq<Step>, i: nat)
    requires IsRun(cfg, trace, steps) && i < |trace|
    ensures var s := trace[i];
      && (cfg.listening ==> s.told + InHand(s.drains, s.notifier) + s.cache.pending == s.log)
      && (!cfg.listening ==> s.told == [])
      && (s.cache.pending != [] ==> exists d :: 0 <= d < |s.drains| && WillPop(s.drains[d]))
  {
    RunInv(cfg, trace, steps, i);
  }

  /** The notice handed over by a `Tell` is the next in publication order, and the cache already holds that build or a later one. */
  lemma TellIsNext(cfg: Config, trace: seq<State>, steps: seq<Step>, i: nat)
    requires IsRun(cfg, trace, steps) && i < |steps| && steps[i].Tell?
    ensures var s := trace[i];
      && |s.told| < |s.log| && trace[i + 1].told == s.told + [s.log[|s.told|]] == s.log[..|s.told| + 1]
      && s.cache.current == Some(s.log[|s.log| - 1].current)
  {
    RunInv(cfg, trace, steps, i);
    var s, d := trace[i], steps[i].d;
    assert Flushing(s.drains[d]);
    assert s.log == s.told + [s.drains[d].n] + s.cache.pending;
    assert s.log[|s.told|] == s.drains[d].n;
    HeldIsTheLatest(cfg, trace, steps, i);
  }

  // ---------------------------------------------------------------------------
  // Every waiter is answered
  // ---------------------------------------------------------------------------

  function RequestWork(p: Point): nat {
    match p
    case AtLock => 11
    case Waiting => 2
    case Cancelled => 1
    case Answered(_) => 0
  }

  function NextWork(next: Option<nat>): nat { if next.Some? then 8 else 0 }

  function DrainWork(d: Drain): nat {
    match d
    case Ready(_) => 8
    case Building(_) => 7
    case Closing(_, next) => 4 + NextWork(next)
    case AtNotifyLock(next) => 3 + NextWork(next)
    case Popping(next) => 2 + NextWork(next)
    case Telling(next, _) => 3 + NextWork(next)
    case Unlocking(next) => 1 + NextWork(next)
    case Finished => 0
  }

  function AllRequests(rs: seq<Request>): nat {
    if rs == [] then 0 else AllRequests(rs[..|rs| - 1]) + RequestWork(rs[|rs| - 1].point)
  }

  function AllDrains(ds: seq<Drain>): nat {
    if ds == [] then 0 else AllDrains(ds[..|ds| - 1]) + DrainWork(ds[|ds| - 1])
  }

  /** The steps left to take if no further request arrives. */
  function Work(s: State): nat {
    AllRequests(s.requests) + AllDrains(s.drains) + 2 * |s.cache.pending| + 8 * |s.cache.queued|
  }

  lemma {:induction false} AllRequestsUpdate(rs: seq<Request>, r: nat, q: Request)
    requires r < |rs|
    ensures AllRequests(rs[r := q]) == AllRequests(rs) - RequestWork(rs[r].point) + RequestWork(q.point)
  {
    var n := |rs| - 1;
    if r == n {
      assert rs[r := q][..n] == rs[..n];
    } else {
      AllRequestsUpdate(rs[..n], r, q);
      assert rs[r := q][..n] == rs[..n][r := q];
    }
  }

  lemma {:induction false} AllDrainsUpdate(ds: seq<Drain>, i: nat, d: Drain)
    requires i < |ds|
    ensures AllDrains(ds[i := d]) == AllDrains(ds) - DrainWork(ds[i]) + DrainWork(d)
  {
    var n := |ds| - 1;
    if i == n {
      assert ds[i := d][..n] == ds[..n];
    } else {
      AllDrainsUpdate(ds[..n], i, d);
      assert ds[i := d][..n] == ds[..n][i := d];
    }
  }

  lemma LockUsesUpWork(cfg: Config, s: State, r: nat)
    requires Enabled(s, Lock(r))
    ensures Work(Do(cfg, s, Lock(r))) < Work(s)
  {
    var s' := Do(cfg, s, Lock(r));
    AllRequestsUpdate(s.requests, r, s'.requests[r]);
    assert s'.cache.pending == s.cache.pending;
    if s'.drains != s.drains {
      assert s'.drains[..|s.drains|] == s.drains && s'.cache.queued == s.cache.queued;
    } else {
      assert |s'.cache.queued| <= |s.cache.queued| + 1;
    }
  }

  lemma DrainUsesUpWork(cfg: Config, s: State, step: Step, d: nat)
    requires Enabled(s, step) && d < |s.drains|
    requires match step
      case Begin(x) => x == d case Publish(x, _) => x == d case Close(x) => x == d
      case TakeNotifyLock(x) => x == d case Pop(x) => x == d case Tell(x) => x == d case Unlock(x) => x == d
      case _ => false
    ensures Work(Do(cfg, s, step)) < Work(s)
  {
    var s' := Do(cfg, s, step);
    AllDrainsUpdate(s.drains, d, s'.drains[d]);
    assert s'.drains == s.drains[d := s'.drains[d]];
    assert DrainWork(s'.drains[d]) + 2 * |s'.cache.pending| + 8 * |s'.cache.queued|
         < DrainWork(s.drains[d]) + 2 * |s.cache.pending| + 8 * |s.cache.queued|;
  }

  /** Every step but a clock tick or a new arrival uses up work. */
  lemma StepsUseUpWork(cfg: Config, s: State, step: Step)
    requires Enabled(s, step) && !step.Tick? && !step.Arrive?
    ensures Work(Do(cfg, s, step)) < Work(s)
  {
    match step
    case Lock(r) => LockUsesUpWork(cfg, s, r);
    case Wake(r) => AllRequestsUpdate(s.requests, r, Do(cfg, s, step).requests[r]);
    case Cancel(r) => AllRequestsUpdate(s.requests, r, Do(cfg, s, step).requests[r]);
    case PeekCancelled(r) => AllRequestsUpdate(s.requests, r, Do(cfg, s, step).requests[r]);
    case Begin(d) => DrainUsesUpWork(cfg, s, step, d);
    case Publish(d, _) => DrainUsesUpWork(cfg, s, step, d);
    case Close(d) => DrainUsesUpWork(cfg, s, step, d);
    case TakeNotifyLock(d) => DrainUsesUpWork(cfg, s, step, d);
    case Pop(d) => DrainUsesUpWork(cfg, s, step, d);
    case Tell(d) => DrainUsesUpWork(cfg, s, step, d);
    case Unlock(d) => DrainUsesUpWork(cfg, s, step, d);
  }

  /** Steps the server takes on its own: no new arrival, no cancellation, no waiting for the clock. */
  predicate ByServer(step: Step) { !step.Tick? && !step.Arrive? && !step.Cancel? }

  /** Whatever the server can still do, in any state with an unfinished drain. */
  lemma DrainCanStep(cfg: Config, s: State, d: nat) returns (step: Step)
    requires Inv(cfg, s) && d < |s.drains| && s.drains[d] != Finished
    ensures ByServer(step) && Enabled(s, step)
  {
    assert Entered(s.drains[d], s.cache.builds, |s.log|);
    match s.drains[d]
    case Ready(_) => assert Owner(s.drains, d); step := Begin(d);
    case Building(_) => assert Owner(s.drains, d); step := Publish(d, Empty);
    case Closing(_, _) => step := Close(d);
    case Popping(_) => step := Pop(d);
    case Telling(_, _) => step := Tell(d);
    case Unlocking(_) => step := Unlock(d);
    case AtNotifyLock(_) =>
      if s.notifier == None {
        step := TakeNotifyLock(d);
      } else {
        step := DrainCanStep'(s, s.notifier.value);
      }
  }

  lemma DrainCanStep'(s: State, d: nat) returns (step: Step)
    requires d < |s.drains| && Notifying(s.drains[d])
    ensures ByServer(step) && Enabled(s, step)
  {
    match s.drains[d]
    case Popping(_) => step := Pop(d);
    case Telling(_, _) => step := Tell(d);
    case Unlocking(_) => step := Unlock(d);
  }

  /** When the server has nothing left to do, every request is answered, nothing runs or waits to run, and the
      listener has been told every publication exactly once. With StepsUseUpWork, a server that keeps stepping
      gets there in at most `Work` steps. */
  lemma NothingIsLeftUndone(cfg: Config, trace: seq<State>, steps: seq<Step>, i: nat)
    requires IsRun(cfg, trace, steps) && i < |trace|
    requires forall step :: ByServer(step) ==> !Enabled(trace[i], step)
    ensures var s := trace[i];
      && (forall r :: 0 <= r < |s.requests| ==> s.requests[r].point.Answered?)
      && s.cache.running == None && s.cache.queued == [] && |s.log| == |s.cache.builds|
      && (cfg.listening ==> s.told == s.log)
  {
    RunInv(cfg, trace, steps, i);
    var s := trace[i];
    forall d | 0 <= d < |s.drains| ensures s.drains[d] == Finished {
      if s.drains[d] != Finished {
        var step := DrainCanStep(cfg, s, d);
      }
    }
    assert s.cache.pending == [];
    assert forall d: nat :: !Owner(s.drains, d);
    forall r: nat | r < |s.requests| ensures s.requests[r].point.Answered? {
      assert RequestInv(cfg, s.cache.builds, |s.log|, s.requests[r]);
      match s.requests[r].point
      case AtLock => assert Enabled(s, Lock(r)) && ByServer(Lock(r));
      case Waiting =>
        var b := s.requests[r].joined.value;
        assert BuildStage(s.cache.builds[b], b, |s.log|);
        assert forall d: nat :: !IsClosing(s.drains, d, b);
        assert Enabled(s, Wake(r)) && ByServer(Wake(r));
      case Cancelled => assert Enabled(s, PeekCancelled(r)) && ByServer(PeekCancelled(r));
      case Answered(_) =>
    }
  }
}
