/** When a promoted build is kept waiting for the listener. The comment above `notifyMu` in
    labview/internal/cache/cache.go says that two drains meet there only when both have run their chains to the end. A
    request that starts a drain while another drain is still in its flush makes that false, and nothing else does. */
module CacheDelay {
  import opened Options
  import opened BuildCache
  import opened CacheProtocol
  import opened CacheInvariant
  import opened CacheTheorems
  import opened CacheCounterexamples

  /** Drain `d` has promoted a build and finds `notifyMu` in the hands of `e`. */
  ghost predicate KeptBy(s: State, d: nat, e: nat) {
    && d < |s.drains| && e < |s.drains| && d != e
    && s.drains[d].AtNotifyLock? && s.drains[d].next.Some? && s.notifier == Some(e)
  }

  lemma ReachableInv(cfg: Config, s: State)
    requires Reachable(cfg, s)
    ensures Inv(cfg, s)
  {
    var trace, steps :| IsRun(cfg, trace, steps) && trace[|steps|] == s;
    RunInv(cfg, trace, steps, |steps|);
  }

  /** A promoted build stands still at the notify lock exactly when another drain holds the lock, and that drain is in
      its last flush: its chain has run to the end and the build running is the one kept. */
  lemma KeptByAFinishedChain(cfg: Config, s: State, d: nat)
    requires Reachable(cfg, s) && d < |s.drains| && s.drains[d].AtNotifyLock? && s.drains[d].next.Some?
    ensures !Enabled(s, TakeNotifyLock(d)) <==> exists e: nat :: KeptBy(s, d, e)
    ensures forall e: nat :: KeptBy(s, d, e) ==> Notifying(s.drains[e]) && Owned(s.drains[e]) == None
    ensures s.cache.running == s.drains[d].next
  {
    ReachableInv(cfg, s);
    assert Owner(s.drains, d);
    if s.notifier.Some? {
      assert Notifying(s.drains[s.notifier.value]);
      assert KeptBy(s, d, s.notifier.value);
    }
    forall e: nat | KeptBy(s, d, e) ensures Notifying(s.drains[e]) && Owned(s.drains[e]) == None {
      assert !Owner(s.drains, e);
    }
  }

  // ---------------------------------------------------------------------------
  // Runs from a state
  // ---------------------------------------------------------------------------

  ghost predicate Path(cfg: Config, trace: seq<State>, steps: seq<Step>) {
    && |trace| == |steps| + 1
    && forall i :: 0 <= i < |steps| ==> Enabled(trace[i], steps[i]) && trace[i + 1] == Do(cfg, trace[i], steps[i])
  }

  /** Some run takes `s` to `t`. */
  ghost predicate Leads(cfg: Config, s: State, t: State) {
    exists trace, steps :: Path(cfg, trace, steps) && trace[0] == s && trace[|steps|] == t
  }

  lemma LeadsNowhere(cfg: Config, s: State)
    ensures Leads(cfg, s, s)
  {
    var none: seq<Step> := [];
    assert Path(cfg, [s], none) && [s][0] == s && [s][|none|] == s;
  }

  lemma LeadsOn(cfg: Config, o: State, s: State, step: Step)
    requires Leads(cfg, o, s) && Enabled(s, step)
    ensures Leads(cfg, o, Do(cfg, s, step))
  {
    var t := Do(cfg, s, step);
    var trace, steps :| Path(cfg, trace, steps) && trace[0] == o && trace[|steps|] == s;
    var trace', steps' := trace + [t], steps + [step];
    forall i | 0 <= i < |steps'| ensures Enabled(trace'[i], steps'[i]) && trace'[i + 1] == Do(cfg, trace'[i], steps'[i]) {
      if i < |steps| {
        assert Enabled(trace[i], steps[i]);
      }
    }
    assert Path(cfg, trace', steps') && trace'[0] == o && trace'[|steps'|] == t;
  }

  lemma Follow(cfg: Config, o: State, s: State, step: Step) returns (t: State)
    requires Leads(cfg, o, s) && Inv(cfg, s) && Enabled(s, step)
    ensures t == Do(cfg, s, step) && Leads(cfg, o, t) && Inv(cfg, t)
  {
    t := Do(cfg, s, step);
    LeadsOn(cfg, o, s, step);
    StepKeeps(cfg, s, step);
  }

  ghost predicate CanBeKept(cfg: Config, s: State, d: nat) {
    exists t: State, e: nat :: Leads(cfg, s, t) && KeptBy(t, d, e)
  }

  ghost predicate CanWaitForACallback(cfg: Config, s: State, d: nat) {
    exists t: State, e: nat :: Leads(cfg, s, t) && DelayedByCallback(t, d, e)
  }

  // ---------------------------------------------------------------------------
  // Starting a drain
  // ---------------------------------------------------------------------------

  /** The request takes the lock and starts a drain, which is then drain `|s.drains|`. */
  predicate Starts(cfg: Config, s: State, r: nat) {
    Enabled(s, Lock(r)) && |DoLock(cfg, s, r).drains| > |s.drains|
  }

  lemma StartShape(cfg: Config, s: State, r: nat)
    requires Inv(cfg, s) && Starts(cfg, s, r)
    ensures var t := Do(cfg, s, Lock(r));
      && t.drains == s.drains + [Ready(|s.cache.builds|)] && t.notifier == s.notifier && t.cache.queued == []
    ensures forall e: nat :: e < |s.drains| ==> Owned(s.drains[e]) == None
  {
    assert s.cache.running == None;
    forall e: nat | e < |s.drains| ensures Owned(s.drains[e]) == None {
      assert !Owner(s.drains, e);
    }
  }

  // ---------------------------------------------------------------------------
  // A start after every flush is never kept
  // ---------------------------------------------------------------------------

  /** A drain that will not hold the lock again; one that is not `out` may be about to let go of it. */
  ghost predicate Spent(d: Drain, out: bool) { d.Finished? || (!out && d == Unlocking(None)) }

  /** All drains before `d` are spent, and none was started after it before its own chain ended. */
  ghost predicate Last(drains: seq<Drain>, d: nat, out: bool) {
    && d < |drains|
    && (forall e: nat :: e < d ==> Spent(drains[e], out))
    && (d + 1 < |drains| ==> Owned(drains[d]) == None)
  }

  lemma LastStays(cfg: Config, s: State, step: Step, d: nat, out: bool)
    requires Inv(cfg, s) && Enabled(s, step) && Last(s.drains, d, out)
    ensures Last(Do(cfg, s, step).drains, d, out)
  {
    if step.Lock? {
      LastAfterLock(cfg, s, step.r, d, out);
    } else {
      DrainsOnlyMove(cfg, s, step);
      assert Moved(s.drains[d], Do(cfg, s, step).drains[d]);
    }
  }

  /** What one step makes of a drain: one that owns nothing never does again, one about to leave leaves. */
  ghost predicate Moved(a: Drain, b: Drain) {
    (a.Finished? ==> b == a) && (Owned(a) == None ==> Owned(b) == None) && (a == Unlocking(None) ==> b == a || b == Finished)
  }

  lemma DrainsOnlyMove(cfg: Config, s: State, step: Step)
    requires Enabled(s, step) && !step.Lock? && OwnerInv(s.drains, s.cache.running)
    ensures |Do(cfg, s, step).drains| == |s.drains|
    ensures forall e: nat :: e < |s.drains| ==> Moved(s.drains[e], Do(cfg, s, step).drains[e])
  {
  }

  lemma LastAfterLock(cfg: Config, s: State, r: nat, d: nat, out: bool)
    requires Inv(cfg, s) && Enabled(s, Lock(r)) && Last(s.drains, d, out)
    ensures Last(Do(cfg, s, Lock(r)).drains, d, out)
  {
    if Starts(cfg, s, r) {
      StartShape(cfg, s, r);
    } else {
      assert DoLock(cfg, s, r).drains == s.drains;
    }
  }

  lemma {:induction false} LastAlways(cfg: Config, trace: seq<State>, steps: seq<Step>, i: nat, d: nat, out: bool)
    requires Path(cfg, trace, steps) && i < |trace| && Inv(cfg, trace[0]) && Last(trace[0].drains, d, out)
    ensures Inv(cfg, trace[i]) && Last(trace[i].drains, d, out)
  {
    if i > 0 {
      LastAlways(cfg, trace, steps, i - 1, d, out);
      StepKeeps(cfg, trace[i - 1], steps[i - 1]);
      LastStays(cfg, trace[i - 1], steps[i - 1], d, out);
    }
  }

  lemma LastIsNotKept(cfg: Config, s: State, t: State, d: nat, e: nat, out: bool)
    requires Inv(cfg, s) && Last(s.drains, d, out) && Leads(cfg, s, t)
    ensures out ==> !KeptBy(t, d, e)
    ensures !DelayedByCallback(t, d, e)
  {
    var trace, steps :| Path(cfg, trace, steps) && trace[0] == s && trace[|steps|] == t;
    LastAlways(cfg, trace, steps, |steps|, d, out);
  }

  // ---------------------------------------------------------------------------
  // A start during a flush can be kept
  // ---------------------------------------------------------------------------

  /** A forced request arrives once the clock has moved, and has to queue. */
  lemma OneQueues(cfg: Config, s: State, d: nat) returns (t: State)
    requires Inv(cfg, s) && d < |s.drains| && s.drains[d].Ready? && s.cache.queued == []
    ensures Leads(cfg, s, t) && Inv(cfg, t) && |t.cache.queued| == 1
    ensures t.drains == s.drains && t.notifier == s.notifier
  {
    assert Owner(s.drains, d);
    LeadsNowhere(cfg, s);
    t := Follow(cfg, s, s, Tick(1));
    t := Follow(cfg, s, t, Arrive(true, None));
    var b := t.cache.running.value;
    assert BuildStage(t.cache.builds[b], b, |t.log|) && BuildClock(s.cache.builds[b], s.clock);
    LockQueues(cfg, t, |s.requests|);
    t := Follow(cfg, s, t, Lock(|s.requests|));
  }

  lemma OneBegins(cfg: Config, o: State, s: State, d: nat) returns (t: State)
    requires Leads(cfg, o, s) && Inv(cfg, s) && d < |s.drains| && s.drains[d].Ready?
    ensures Leads(cfg, o, t) && Inv(cfg, t) && t.cache.queued == s.cache.queued
    ensures t.drains == s.drains[d := Building(s.drains[d].b)] && t.notifier == s.notifier
  {
    assert Owner(s.drains, d);
    t := Follow(cfg, o, s, Begin(d));
  }

  lemma OnePublishes(cfg: Config, o: State, s: State, d: nat) returns (t: State)
    requires cfg.listening && Leads(cfg, o, s) && Inv(cfg, s) && d < |s.drains| && s.drains[d].Building? && |s.cache.queued| == 1
    ensures Leads(cfg, o, t) && Inv(cfg, t) && t.cache.running.Some? && t.cache.pending != []
    ensures t.drains == s.drains[d := Closing(s.drains[d].b, t.cache.running)] && t.notifier == s.notifier
  {
    assert Owner(s.drains, d);
    assert BuildStage(s.cache.builds[s.drains[d].b], s.drains[d].b, |s.log|);
    t := Follow(cfg, o, s, Publish(d, Empty));
  }

  lemma OneCloses(cfg: Config, o: State, s: State, d: nat) returns (t: State)
    requires cfg.listening && Leads(cfg, o, s) && Inv(cfg, s) && d < |s.drains| && s.drains[d].Closing?
    ensures Leads(cfg, o, t) && Inv(cfg, t) && t.cache.running == s.cache.running && t.cache.pending == s.cache.pending
    ensures t.drains == s.drains[d := AtNotifyLock(s.drains[d].next)] && t.notifier == s.notifier
  {
    assert Entered(s.drains[d], s.cache.builds, |s.log|);
    t := Follow(cfg, o, s, Close(d));
  }

  /** The drain runs its build, promotes the queued one and comes to the notify lock. */
  lemma RunsItsBuild(cfg: Config, o: State, s: State, d: nat) returns (t: State)
    requires cfg.listening && Leads(cfg, o, s) && Inv(cfg, s) && d < |s.drains| && s.drains[d].Ready? && |s.cache.queued| == 1
    ensures Leads(cfg, o, t) && Inv(cfg, t) && t.cache.running.Some? && t.cache.pending != []
    ensures t.drains == s.drains[d := AtNotifyLock(t.cache.running)] && t.notifier == s.notifier
  {
    t := OneBegins(cfg, o, s, d);
    t := OnePublishes(cfg, o, t, d);
    t := OneCloses(cfg, o, t, d);
  }

  lemma Promotes(cfg: Config, s: State, d: nat) returns (t: State)
    requires cfg.listening && Inv(cfg, s) && d < |s.drains| && s.drains[d].Ready? && s.cache.queued == []
    ensures Leads(cfg, s, t) && Inv(cfg, t) && t.cache.running.Some? && t.cache.pending != []
    ensures t.drains == s.drains[d := AtNotifyLock(t.cache.running)] && t.notifier == s.notifier
  {
    t := OneQueues(cfg, s, d);
    t := RunsItsBuild(cfg, s, t, d);
  }

  /** A drain in the callback, or one that is inside the flush loop with a notice to take. */
  lemma HolderTells(cfg: Config, o: State, s: State, d: nat, e: nat) returns (t: State)
    requires Leads(cfg, o, s) && Inv(cfg, s) && d < |s.drains| && e < |s.drains| && d != e
    requires s.cache.running.Some? && s.drains[d] == AtNotifyLock(s.cache.running) && s.cache.pending != []
    requires s.drains[e].Popping? || s.drains[e].Telling?
    ensures Leads(cfg, o, t) && DelayedByCallback(t, d, e)
  {
    t := s;
    if s.drains[e].Popping? {
      t := Follow(cfg, o, s, Pop(e));
    }
  }

  lemma LockComesToACallback(cfg: Config, o: State, s: State, d: nat, e: nat) returns (t: State, h: nat)
    requires Leads(cfg, o, s) && Inv(cfg, s) && d < |s.drains| && e < |s.drains| && d != e
    requires s.cache.running.Some? && s.drains[d] == AtNotifyLock(s.cache.running) && s.cache.pending != []
    requires s.drains[e].AtNotifyLock?
    ensures Leads(cfg, o, t) && DelayedByCallback(t, d, h)
  {
    if s.notifier.Some? && !s.drains[s.notifier.value].Unlocking? {
      h := s.notifier.value;
      t := HolderTells(cfg, o, s, d, h);
    } else {
      t := LockIsFreed(cfg, o, s, d, e);
      t := TakesAndTells(cfg, o, t, d, e);
      h := e;
    }
  }

  /** A drain about to let go of the lock lets go of it. */
  lemma LockIsFreed(cfg: Config, o: State, s: State, d: nat, e: nat) returns (t: State)
    requires Leads(cfg, o, s) && Inv(cfg, s) && d < |s.drains| && e < |s.drains|
    requires s.drains[d].AtNotifyLock? && s.drains[e].AtNotifyLock?
    requires s.notifier.Some? ==> s.drains[s.notifier.value].Unlocking?
    ensures Leads(cfg, o, t) && Inv(cfg, t) && t.notifier == None && t.cache == s.cache
    ensures |t.drains| == |s.drains| && t.drains[d] == s.drains[d] && t.drains[e] == s.drains[e]
  {
    t := s;
    if s.notifier.Some? {
      t := Follow(cfg, o, s, Unlock(s.notifier.value));
    }
  }

  lemma TakesAndTells(cfg: Config, o: State, s: State, d: nat, e: nat) returns (t: State)
    requires Leads(cfg, o, s) && Inv(cfg, s) && d < |s.drains| && e < |s.drains| && d != e && s.notifier == None
    requires s.cache.running.Some? && s.drains[d] == AtNotifyLock(s.cache.running) && s.cache.pending != []
    requires s.drains[e].AtNotifyLock?
    ensures Leads(cfg, o, t) && DelayedByCallback(t, d, e)
  {
    t := Follow(cfg, o, s, TakeNotifyLock(e));
    t := HolderTells(cfg, o, t, d, e);
  }

  lemma ComesToACallback(cfg: Config, o: State, s: State, d: nat, e: nat) returns (t: State, h: nat)
    requires cfg.listening && Leads(cfg, o, s) && Inv(cfg, s) && d < |s.drains| && e < |s.drains| && d != e
    requires s.cache.running.Some? && s.drains[d] == AtNotifyLock(s.cache.running) && s.cache.pending != []
    requires WillPop(s.drains[e])
    ensures Leads(cfg, o, t) && DelayedByCallback(t, d, h)
  {
    if s.drains[e].Popping? || s.drains[e].Telling? {
      h := e;
      t := HolderTells(cfg, o, s, d, e);
    } else {
      t := s;
      if s.drains[e].Closing? {
        t := OneCloses(cfg, o, s, e);
      }
      t, h := LockComesToACallback(cfg, o, t, d, e);
    }
  }

  // ---------------------------------------------------------------------------
  // The exact conditions
  // ---------------------------------------------------------------------------

  /** The drain a request starts can come to stand behind the listener with a promoted build in hand exactly when some
      earlier drain has still to look at the pending notices at that moment. */
  lemma WaitsForACallbackExactly(cfg: Config, s: State, r: nat)
    requires cfg.listening && Reachable(cfg, s) && Starts(cfg, s, r)
    ensures CanWaitForACallback(cfg, Do(cfg, s, Lock(r)), |s.drains|) <==> exists e: nat :: e < |s.drains| && WillPop(s.drains[e])
  {
    ReachableInv(cfg, s);
    StartShape(cfg, s, r);
    StepKeeps(cfg, s, Lock(r));
    var o, d := Do(cfg, s, Lock(r)), |s.drains|;
    if e: nat :| e < |s.drains| && WillPop(s.drains[e]) {
      var t := Promotes(cfg, o, d);
      assert t.drains[e] == s.drains[e];
      var u, h := ComesToACallback(cfg, o, t, d, e);
    } else {
      forall e: nat | e < d ensures Spent(o.drains[e], false) { assert !WillPop(s.drains[e]) && Owned(s.drains[e]) == None; }
      forall t: State, e: nat | Leads(cfg, o, t) ensures !DelayedByCallback(t, d, e) { LastIsNotKept(cfg, o, t, d, e, false); }
    }
  }

  lemma KeptWhileUnlocking(cfg: Config, o: State, d: nat, e: nat)
    requires cfg.listening && Inv(cfg, o) && d < |o.drains| && e < |o.drains| && d != e
    requires o.drains[d].Ready? && o.drains[e].Unlocking? && o.cache.queued == []
    ensures CanBeKept(cfg, o, d)
  {
    var t := Promotes(cfg, o, d);
    assert KeptBy(t, d, e);
  }

  lemma CallbackKeeps(cfg: Config, o: State, d: nat)
    requires CanWaitForACallback(cfg, o, d)
    ensures CanBeKept(cfg, o, d)
  {
    var t: State, h: nat :| Leads(cfg, o, t) && DelayedByCallback(t, d, h);
    assert KeptBy(t, d, h);
  }

  /** And it can find the notify lock held at all, with a promoted build in hand, exactly when some earlier drain has not
      returned at that moment. */
  lemma KeptExactly(cfg: Config, s: State, r: nat)
    requires cfg.listening && Reachable(cfg, s) && Starts(cfg, s, r)
    ensures CanBeKept(cfg, Do(cfg, s, Lock(r)), |s.drains|) <==> exists e: nat :: e < |s.drains| && !s.drains[e].Finished?
  {
    ReachableInv(cfg, s);
    StartShape(cfg, s, r);
    StepKeeps(cfg, s, Lock(r));
    var o, d := Do(cfg, s, Lock(r)), |s.drains|;
    if e: nat :| e < |s.drains| && WillPop(s.drains[e]) {
      WaitsForACallbackExactly(cfg, s, r);
      CallbackKeeps(cfg, o, d);
    } else if e: nat :| e < |s.drains| && !s.drains[e].Finished? {
      assert Owned(s.drains[e]) == None && s.drains[e].Unlocking?;
      KeptWhileUnlocking(cfg, o, d, e);
    } else {
      forall t: State, e: nat | Leads(cfg, o, t) ensures !KeptBy(t, d, e) { LastIsNotKept(cfg, o, t, d, e, true); }
    }
  }

  // ---------------------------------------------------------------------------
  // Whole runs
  // ---------------------------------------------------------------------------

  ghost predicate AllReturned(drains: seq<Drain>) { forall e :: 0 <= e < |drains| ==> drains[e].Finished? }

  /** Every request that starts a drain finds all earlier drains returned. */
  ghost predicate StartsAlone(cfg: Config, trace: seq<State>, steps: seq<Step>)
    requires |trace| == |steps| + 1
  {
    forall i :: 0 <= i < |steps| && steps[i].Lock? && Starts(cfg, trace[i], steps[i].r) ==> AllReturned(trace[i].drains)
  }

  ghost predicate AtMostOne(drains: seq<Drain>) {
    forall d, e :: 0 <= d < |drains| && 0 <= e < |drains| && !drains[d].Finished? && !drains[e].Finished? ==> d == e
  }

  lemma AtMostOneStays(cfg: Config, s: State, step: Step)
    requires Inv(cfg, s) && Enabled(s, step) && AtMostOne(s.drains)
    requires step.Lock? && Starts(cfg, s, step.r) ==> AllReturned(s.drains)
    ensures AtMostOne(Do(cfg, s, step).drains)
  {
    if step.Lock? {
      AtMostOneAfterLock(cfg, s, step.r);
    } else {
      DrainsOnlyMove(cfg, s, step);
      var drains' := Do(cfg, s, step).drains;
      assert forall e: nat :: e < |drains'| && !drains'[e].Finished? ==> Moved(s.drains[e], drains'[e]) && !s.drains[e].Finished?;
    }
  }

  lemma AtMostOneAfterLock(cfg: Config, s: State, r: nat)
    requires Inv(cfg, s) && Enabled(s, Lock(r)) && AtMostOne(s.drains)
    requires Starts(cfg, s, r) ==> AllReturned(s.drains)
    ensures AtMostOne(Do(cfg, s, Lock(r)).drains)
  {
    if Starts(cfg, s, r) {
      StartShape(cfg, s, r);
    } else {
      assert DoLock(cfg, s, r).drains == s.drains;
    }
  }

  lemma AloneIsFree(drains: seq<Drain>, notifier: Option<nat>, d: nat)
    requires AtMostOne(drains) && NotifyInv(drains, notifier) && d < |drains| && drains[d].AtNotifyLock?
    ensures notifier == None
  {
  }

  lemma {:induction false} NeverTwo(cfg: Config, trace: seq<State>, steps: seq<Step>, i: nat)
    requires IsRun(cfg, trace, steps) && StartsAlone(cfg, trace, steps) && i < |trace|
    ensures AtMostOne(trace[i].drains)
  {
    if i > 0 {
      RunInv(cfg, trace, steps, i - 1);
      NeverTwo(cfg, trace, steps, i - 1);
      AtMostOneStays(cfg, trace[i - 1], steps[i - 1]);
    }
  }

  /** In such a run no drain ever finds the notify lock held by another, whatever it has in hand. */
  lemma NeverKept(cfg: Config, trace: seq<State>, steps: seq<Step>, i: nat, d: nat)
    requires IsRun(cfg, trace, steps) && StartsAlone(cfg, trace, steps) && i < |trace|
    requires d < |trace[i].drains| && trace[i].drains[d].AtNotifyLock?
    ensures Enabled(trace[i], TakeNotifyLock(d))
  {
    RunInv(cfg, trace, steps, i);
    NeverTwo(cfg, trace, steps, i);
    AloneIsFree(trace[i].drains, trace[i].notifier, d);
  }
}
