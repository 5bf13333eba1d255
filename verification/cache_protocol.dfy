/** The build cache as a concurrent protocol: requests and drains interleaved at every lock, channel and
    callback boundary of labview/internal/cache/cache.go, over a clock that never goes back.

    `log` and `told` are history: every publication, and every notice handed to the listener, in order. */
module CacheProtocol {
  import opened Options
  import opened BuildCache

  /** How a request was answered. The numbers are history: the build waited on, the build that was held,
      or how many builds had been published when a cancelled caller peeked. */
  datatype Reply = FromBuild(b: nat, out: Overview) | FromHeld(b: nat, out: Overview) | FromPeek(published: nat, out: Overview)

  datatype Point = AtLock | Waiting | Cancelled | Answered(reply: Reply)

  /** One call of `Get`. `joined` is history: the build the call created or joined. */
  datatype Request = Request(arrived: int, forced: bool, probe: Option<bool>, joined: Option<nat>, point: Point)

  /** One drain goroutine. `next` is the build it promoted and will run after flushing. */
  datatype Drain =
    | Ready(b: nat) | Building(b: nat) | Closing(b: nat, next: Option<nat>)
    | AtNotifyLock(next: Option<nat>) | Popping(next: Option<nat>) | Telling(next: Option<nat>, n: Notice)
    | Unlocking(next: Option<nat>) | Finished

  datatype State = State(
    clock: int, cache: Shared, requests: seq<Request>, drains: seq<Drain>,
    notifier: Option<nat>, log: seq<Notice>, told: seq<Notice>)

  datatype Step =
    | Tick(dt: nat) | Arrive(forced: bool, probe: Option<bool>)
    | Lock(r: nat) | Wake(r: nat) | Cancel(r: nat) | PeekCancelled(r: nat)
    | Begin(d: nat) | Publish(d: nat, out: Overview) | Close(d: nat)
    | TakeNotifyLock(d: nat) | Pop(d: nat) | Tell(d: nat) | Unlock(d: nat)

  predicate Init(s: State) {
    && s.cache == Shared([], None, [], None, s.cache.at, None, [])
    && s.requests == [] && s.drains == [] && s.notifier == None && s.log == [] && s.told == []
  }

  /** The drain after its flush: it runs what it promoted, or returns. */
  function Onward(next: Option<nat>): Drain {
    if next.Some? then Ready(next.value) else Finished
  }

  predicate Enabled(s: State, step: Step) {
    match step
    case Tick(_) => true
    case Arrive(_, _) => true
    case Lock(r) => r < |s.requests| && s.requests[r].point == AtLock && s.cache.Sound()
    case Wake(r) =>
      && r < |s.requests| && s.requests[r].point == Waiting
      && s.requests[r].joined.Some? && s.requests[r].joined.value < |s.cache.builds|
      && var b := s.cache.builds[s.requests[r].joined.value]; b.done && b.result.Some?
    case Cancel(r) => r < |s.requests| && s.requests[r].point == Waiting
    case PeekCancelled(r) => r < |s.requests| && s.requests[r].point == Cancelled
    case Begin(d) => d < |s.drains| && s.drains[d].Ready? && s.drains[d].b < |s.cache.builds|
    case Publish(d, _) =>
      && d < |s.drains| && s.drains[d].Building? && s.cache.Sound()
      && s.drains[d].b < |s.cache.builds| && s.cache.builds[s.drains[d].b].startedAt.Some?
    case Close(d) => d < |s.drains| && s.drains[d].Closing? && s.drains[d].b < |s.cache.builds|
    case TakeNotifyLock(d) => d < |s.drains| && s.drains[d].AtNotifyLock? && s.notifier == None
    case Pop(d) => d < |s.drains| && s.drains[d].Popping?
    case Tell(d) => d < |s.drains| && s.drains[d].Telling?
    case Unlock(d) => d < |s.drains| && s.drains[d].Unlocking?
  }

  /** The state after `step`. */
  function Do(cfg: Config, s: State, step: Step): State
    requires Enabled(s, step)
  {
    match step
    case Tick(dt) => s.(clock := s.clock + dt)
    case Arrive(forced, probe) =>
      s.(requests := s.requests + [Request(s.clock, forced, probe, None, AtLock)])
    case Lock(r) => DoLock(cfg, s, r)
    case Wake(r) =>
      var b := s.requests[r].joined.value;
      Move(s, r, Answered(FromBuild(b, s.cache.builds[b].result.value)))
    case Cancel(r) => Move(s, r, Cancelled)
    case PeekCancelled(r) => Move(s, r, Answered(FromPeek(|s.log|, s.cache.current.GetOr(Empty))))
    case Begin(d) =>
      var b := s.drains[d].b;
      s.(cache := s.cache.(builds := s.cache.builds[b := s.cache.builds[b].(began := Some(s.clock))]),
         drains := s.drains[d := Building(b)])
    case Publish(d, out) =>
      var b := s.drains[d].b;
      var after := Published(cfg, s.cache, b, out, s.clock);
      s.(cache := after, drains := s.drains[d := Closing(b, after.running)],
         log := s.log + [Notice(s.cache.current, out, s.cache.builds[b].forced)])
    case Close(d) =>
      var b, next := s.drains[d].b, s.drains[d].next;
      s.(cache := s.cache.(builds := s.cache.builds[b := s.cache.builds[b].(done := true)]),
         drains := s.drains[d := if cfg.listening then AtNotifyLock(next) else Onward(next)])
    case TakeNotifyLock(d) =>
      s.(notifier := Some(d), drains := s.drains[d := Popping(s.drains[d].next)])
    case Pop(d) =>
      if s.cache.pending == [] then
        s.(drains := s.drains[d := Unlocking(s.drains[d].next)])
      else
        s.(cache := s.cache.(pending := s.cache.pending[1..]),
           drains := s.drains[d := Telling(s.drains[d].next, s.cache.pending[0])])
    case Tell(d) =>
      s.(told := s.told + [s.drains[d].n], drains := s.drains[d := Popping(s.drains[d].next)])
    case Unlock(d) =>
      s.(notifier := None, drains := s.drains[d := Onward(s.drains[d].next)])
  }

  function Move(s: State, r: nat, point: Point): State
    requires r < |s.requests|
  {
    s.(requests := s.requests[r := s.requests[r].(point := point)])
  }

  /** The locked part of `Get`, and the drain it starts when nothing was running. */
  function DoLock(cfg: Config, s: State, r: nat): State
    requires Enabled(s, Lock(r))
  {
    var q := s.requests[r];
    var (after, outcome) := Admit(cfg, s.cache, q.arrived, q.forced, q.probe);
    match outcome
    case Held(out) => Move(s, r, Answered(FromHeld(if |s.log| > 0 then |s.log| - 1 else 0, out))).(cache := after)
    case Join(b) =>
      s.(cache := after, requests := s.requests[r := q.(joined := Some(b), point := Waiting)])
    case Create(b, own) =>
      s.(cache := after, requests := s.requests[r := q.(joined := Some(b), point := Waiting)],
         drains := if own then s.drains + [Ready(b)] else s.drains)
  }

  // ---------------------------------------------------------------------------
  // The invariant
  // ---------------------------------------------------------------------------

  ghost predicate ClockInv(requests: seq<Request>, builds: seq<Build>, clock: int) {
    && (forall r :: 0 <= r < |requests| ==> requests[r].arrived <= clock)
    && (forall b :: 0 <= b < |builds| ==> BuildClock(builds[b], clock))
  }

  ghost predicate BuildClock(b: Build, clock: int) {
    && (b.startedAt.Some? ==> b.startedAt.value <= clock)
    && (b.began.Some? ==> b.startedAt.Some? && b.startedAt.value <= b.began.value <= clock)
  }

  /** Builds are published in the order they were created: first the `p` published, then the running, then the queued. */
  ghost predicate LineInv(c: Shared, p: nat) {
    var n := |c.builds|;
    && p <= n
    && c.running == (if p < n then Some(p) else None)
    && |c.queued| == (if p < n then n - p - 1 else 0)
    && forall i :: 0 <= i < |c.queued| ==> c.queued[i] == p + 1 + i
  }

  ghost predicate BuildsInv(builds: seq<Build>, p: nat) {
    p <= |builds| && forall b: nat :: b < |builds| ==> BuildStage(builds[b], b, p)
  }

  ghost predicate BuildStage(b: Build, id: nat, published: nat) {
    if id < published then b.startedAt.Some? && b.began.Some? && b.result.Some?
    else (id == published <==> b.startedAt.Some?) && b.result.None? && !b.done && (id > published ==> b.began.None?)
  }

  /** `current`, `at` and `probe` belong to one build: the last one published. */
  ghost predicate HeldInv(c: Shared, p: nat)
    requires BuildsInv(c.builds, p)
  {
    if p == 0 then c.current == None
    else
      var last := c.builds[p - 1];
      c.current == last.result && c.at == last.startedAt.value && c.probe == last.probe
  }

  ghost predicate LogInv(builds: seq<Build>, log: seq<Notice>)
    requires BuildsInv(builds, |log|)
  {
    forall i :: 0 <= i < |log| ==> log[i] == NoticeOf(builds, i)
  }

  ghost function NoticeOf(builds: seq<Build>, i: nat): Notice
    requires i < |builds| && builds[i].result.Some?
  {
    Notice(if i == 0 then None else builds[i - 1].result, builds[i].result.value, builds[i].forced)
  }

  /** Queued builds ask for pairwise different probe overrides, and only the head may ask for none. */
  ghost predicate QueueInv(c: Shared, p: nat) {
    && (forall b :: p + 1 < b < |c.builds| ==> c.builds[b].probe.Some?)
    && (forall a, b :: p < a < b < |c.builds| ==> c.builds[a].probe != c.builds[b].probe)
  }

  /** The build a drain is committed to run or is running. */
  function Owned(d: Drain): Option<nat> {
    match d
    case Ready(b) => Some(b)
    case Building(b) => Some(b)
    case Closing(_, next) => next
    case AtNotifyLock(next) => next
    case Popping(next) => next
    case Telling(next, _) => next
    case Unlocking(next) => next
    case Finished => None
  }

  ghost predicate Owner(drains: seq<Drain>, d: nat) {
    d < |drains| && Owned(drains[d]).Some?
  }

  /** A running build is owned by exactly one drain, and nothing else is owned. */
  ghost predicate OwnerInv(drains: seq<Drain>, running: Option<nat>) {
    && (forall d: nat :: Owner(drains, d) ==> Owned(drains[d]) == running)
    && (forall d: nat, e: nat :: Owner(drains, d) && Owner(drains, e) ==> d == e)
    && (running.Some? ==> exists d: nat :: Owner(drains, d))
  }

  /** A build has been entered exactly when its drain is in the build function or past it. */
  ghost predicate BeganInv(drains: seq<Drain>, builds: seq<Build>, p: nat) {
    forall d: nat :: 0 <= d < |drains| ==> Entered(drains[d], builds, p)
  }

  ghost predicate Entered(d: Drain, builds: seq<Build>, p: nat) {
    match d
    case Building(b) => b < |builds| && builds[b].began.Some?
    case Closing(b, _) => b < p
    case _ => true
  }

  ghost predicate IsClosing(drains: seq<Drain>, d: nat, b: nat) {
    d < |drains| && drains[d].Closing? && drains[d].b == b
  }

  /** A published build whose `done` is still open has a drain about to close it. */
  ghost predicate DoneInv(drains: seq<Drain>, builds: seq<Build>, p: nat)
    requires p <= |builds|
  {
    forall b: nat :: b < p && !builds[b].done ==> exists d: nat :: IsClosing(drains, d, b)
  }

  predicate Notifying(d: Drain) { d.Popping? || d.Telling? || d.Unlocking? }

  /** Holding `notifyMu` and being inside the flush loop are the same thing. */
  ghost predicate NotifyInv(drains: seq<Drain>, notifier: Option<nat>) {
    && (notifier.Some? ==> notifier.value < |drains| && Notifying(drains[notifier.value]))
    && (forall d :: 0 <= d < |drains| && Notifying(drains[d]) ==> notifier == Some(d))
  }

  /** The notice popped but not yet told. */
  ghost function InHand(drains: seq<Drain>, notifier: Option<nat>): seq<Notice> {
    if notifier.Some? && notifier.value < |drains| && drains[notifier.value].Telling?
    then [drains[notifier.value].n] else []
  }

  ghost predicate ToldInv(cfg: Config, drains: seq<Drain>, notifier: Option<nat>, told: seq<Notice>, pending: seq<Notice>, log: seq<Notice>) {
    if cfg.listening then told + InHand(drains, notifier) + pending == log
    else told == [] && pending == [] && forall d :: 0 <= d < |drains| ==> !Flushing(drains[d])
  }

  predicate Flushing(d: Drain) { d.AtNotifyLock? || Notifying(d) }

  /** A drain that will still look at `pending` before it leaves its flush. */
  predicate WillPop(d: Drain) { d.Closing? || d.AtNotifyLock? || d.Popping? || d.Telling? }

  ghost predicate OwedInv(drains: seq<Drain>, pending: seq<Notice>) {
    pending != [] ==> exists d :: 0 <= d < |drains| && WillPop(drains[d])
  }

  /** What one request may rely on. */
  ghost predicate RequestInv(cfg: Config, builds: seq<Build>, p: nat, q: Request)
    requires BuildsInv(builds, p)
  {
    && (q.joined.Some? <==> q.point.Waiting? || q.point.Cancelled? || (q.point.Answered? && !q.point.reply.FromHeld?))
    && (q.joined.Some? ==> q.joined.value < |builds| && Entitled(q, builds[q.joined.value]))
    && (q.point.Answered? ==> GoodReply(cfg, builds, p, q, q.point.reply))
  }

  /** A request and the build it waits on: same override if it named one, and not started too early if it forced. */
  ghost predicate Entitled(q: Request, b: Build) {
    && ProbeSuits(q.probe, b.probe)
    && (q.forced ==> b.forced && (b.startedAt.Some? ==> b.startedAt.value >= q.arrived))
  }

  ghost predicate GoodReply(cfg: Config, builds: seq<Build>, p: nat, q: Request, reply: Reply)
    requires BuildsInv(builds, p)
  {
    match reply
    case FromBuild(b, out) => q.joined == Some(b) && b < p && builds[b].result == Some(out)
    case FromHeld(b, out) =>
      && b < p && builds[b].result == Some(out) && ProbeSuits(q.probe, builds[b].probe)
      && !q.forced && cfg.ttl > 0 && q.arrived - builds[b].startedAt.value < cfg.ttl
    case FromPeek(k, out) =>
      k <= p && out == (if k == 0 then Empty else builds[k - 1].result.value)
  }

  ghost predicate RequestsInv(cfg: Config, builds: seq<Build>, p: nat, requests: seq<Request>)
    requires BuildsInv(builds, p)
  {
    forall r :: 0 <= r < |requests| ==> RequestInv(cfg, builds, p, requests[r])
  }

  ghost predicate ForcedBy(requests: seq<Request>, r: nat, b: nat) {
    r < |requests| && requests[r].joined == Some(b) && requests[r].forced
  }

  /** A build is marked forced only when some request that created or joined it was. */
  ghost predicate ForcedInv(requests: seq<Request>, builds: seq<Build>) {
    forall b :: 0 <= b < |builds| && builds[b].forced ==> exists r: nat :: ForcedBy(requests, r, b)
  }

  ghost predicate CacheInv(c: Shared, p: nat) {
    LineInv(c, p) && BuildsInv(c.builds, p) && HeldInv(c, p) && QueueInv(c, p)
  }

  ghost predicate CoreInv(cfg: Config, s: State) {
    && CacheInv(s.cache, |s.log|) && ClockInv(s.requests, s.cache.builds, s.clock) && LogInv(s.cache.builds, s.log)
    && RequestsInv(cfg, s.cache.builds, |s.log|, s.requests) && ForcedInv(s.requests, s.cache.builds)
  }

  ghost predicate DrainInv(cfg: Config, s: State)
    requires |s.log| <= |s.cache.builds|
  {
    && DoneInv(s.drains, s.cache.builds, |s.log|) && OwnerInv(s.drains, s.cache.running) && BeganInv(s.drains, s.cache.builds, |s.log|)
    && NotifyInv(s.drains, s.notifier) && ToldInv(cfg, s.drains, s.notifier, s.told, s.cache.pending, s.log) && OwedInv(s.drains, s.cache.pending)
  }

  ghost predicate Inv(cfg: Config, s: State) {
    CoreInv(cfg, s) && DrainInv(cfg, s)
  }
}
