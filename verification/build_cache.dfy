/** The shared state of the build cache (labview/internal/cache/cache.go) and its critical sections.

    A `*build` pointer is modelled as an index into `builds`, the store of every build ever created, so
    two pointers are equal exactly when the indices are. The functions below are the bodies of the
    sections that run under `mu`; class `Cache` runs them on mutable fields the way the source does, and
    module CacheProtocol interleaves them. */
module BuildCache {
  import opened Options

  /** A scan's payload. `Empty` is the zero payload; what a scan read is opaque. */
  datatype Overview = Empty | Scan(reading: nat)

  /** One run. `startedAt` is unset while the build is queued. `began` is history: the clock when the build
      function was really entered. */
  datatype Build = Build(
    startedAt: Option<int>, forced: bool, probe: Option<bool>,
    done: bool, result: Option<Overview>, began: Option<int>)

  /** What the listener is owed for one completed build. */
  datatype Notice = Notice(previous: Option<Overview>, current: Overview, forced: bool)

  datatype Shared = Shared(
    builds: seq<Build>, running: Option<nat>, queued: seq<nat>,
    current: Option<Overview>, at: int, probe: Option<bool>, pending: seq<Notice>)
  {
    /** Every pointer held names a build in the store, and a running build has been stamped. */
    predicate Sound() {
      && (running.Some? ==> running.value < |builds| && builds[running.value].startedAt.Some?)
      && forall i :: 0 <= i < |queued| ==> queued[i] < |builds|
    }
  }

  datatype Config = Config(ttl: int, listening: bool)

  /** What the locked part of `Get` decided. `Create` with `own` starts a drain for the new build. */
  datatype Outcome = Join(b: nat) | Held(out: Overview) | Create(b: nat, own: bool)

  /** Whether a request asking for `want` may be answered by a build running with `has`. */
  predicate ProbeSuits(want: Option<bool>, has: Option<bool>) {
    want.None? || (has.Some? && want.value == has.value)
  }

  predicate Fresh(cfg: Config, c: Shared, arrived: int) {
    c.current.Some? && cfg.ttl > 0 && arrived - c.at < cfg.ttl
  }

  predicate SuitsQueued(c: Shared, probe: Option<bool>, i: nat)
    requires c.Sound() && i < |c.queued|
  {
    ProbeSuits(probe, c.builds[c.queued[i]].probe)
  }

  /** The first queue position at or after `i` a request asking for `probe` may join, or the queue's length. */
  function FirstSuiting(c: Shared, probe: Option<bool>, i: nat): (k: nat)
    requires c.Sound() && i <= |c.queued|
    ensures i <= k <= |c.queued|
    ensures k < |c.queued| ==> SuitsQueued(c, probe, k)
    ensures forall j :: i <= j < k ==> !SuitsQueued(c, probe, j)
    decreases |c.queued| - i
  {
    if i == |c.queued| || SuitsQueued(c, probe, i) then i else FirstSuiting(c, probe, i + 1)
  }

  /** Whether the running build may answer the request: any unforced one, or a forced one it did not start before. */
  predicate RunningSuits(c: Shared, arrived: int, forced: bool, probe: Option<bool>)
    requires c.Sound()
  {
    && c.running.Some?
    && var b := c.builds[c.running.value];
    ProbeSuits(probe, b.probe) && (!forced || b.startedAt.value >= arrived)
  }

  function Joining(c: Shared, b: nat, forced: bool): Shared
    requires b < |c.builds|
  {
    if forced then c.(builds := c.builds[b := c.builds[b].(forced := true)]) else c
  }

  /** The locked part of `Get`: queued builds first, then the running one, then the held one, then a new one. */
  function Admit(cfg: Config, c: Shared, arrived: int, forced: bool, probe: Option<bool>): (r: (Shared, Outcome))
    requires c.Sound()
  {
    var k := FirstSuiting(c, probe, 0);
    if k < |c.queued| then
      (Joining(c, c.queued[k], forced), Join(c.queued[k]))
    else if RunningSuits(c, arrived, forced, probe) then
      (Joining(c, c.running.value, forced), Join(c.running.value))
    else if !forced && Fresh(cfg, c, arrived) && ProbeSuits(probe, c.probe) then
      (c, Held(c.current.value))
    else
      var id := |c.builds|;
      if c.running.Some? then
        (c.(builds := c.builds + [Build(None, forced, probe, false, None, None)], queued := c.queued + [id]),
         Create(id, false))
      else
        (c.(builds := c.builds + [Build(Some(arrived), forced, probe, false, None, None)], running := Some(id)),
         Create(id, true))
  }

  /** The locked part of one turn of `drain`: publish the result, owe the listener, promote the oldest queued build. */
  function Published(cfg: Config, c: Shared, b: nat, out: Overview, now: int): (c': Shared)
    requires c.Sound() && b < |c.builds| && c.builds[b].startedAt.Some?
  {
    var built := c.builds[b := c.builds[b].(result := Some(out))];
    var owed := if cfg.listening then c.pending + [Notice(c.current, out, c.builds[b].forced)] else c.pending;
    var held := c.(builds := built, current := Some(out), at := c.builds[b].startedAt.value,
                   probe := c.builds[b].probe, pending := owed);
    if |c.queued| > 0 then
      var next := c.queued[0];
      held.(builds := built[next := built[next].(startedAt := Some(now))],
            queued := c.queued[1..], running := Some(next))
    else
      held.(running := None)
  }

  /** The cache object: each method is one critical section, proved against the function that specifies it. */
  class Cache {
    const cfg: Config
    var builds: seq<Build>
    var running: Option<nat>
    var queued: seq<nat>
    var current: Option<Overview>
    var at: int
    var probe: Option<bool>
    var pending: seq<Notice>

    function State(): Shared
      reads this
    {
      Shared(builds, running, queued, current, at, probe, pending)
    }

    constructor (ttl: int, listening: bool)
      ensures cfg == Config(ttl, listening)
      ensures State() == Shared([], None, [], None, 0, None, [])
      ensures State().Sound()
    {
      cfg := Config(ttl, listening);
      builds, running, queued, current, at, probe, pending := [], None, [], None, 0, None, [];
    }

    /** `Get` between taking and releasing `mu`. */
    method GetLocked(arrived: int, forced: bool, want: Option<bool>) returns (outcome: Outcome)
      requires State().Sound()
      modifies this
      ensures (State(), outcome) == Admit(cfg, old(State()), arrived, forced, want)
    {
      var i := 0;
      while i < |queued|
        invariant 0 <= i <= |queued|
        invariant State() == old(State())
        invariant FirstSuiting(State(), want, 0) == FirstSuiting(State(), want, i)
      {
        if ProbeSuits(want, builds[queued[i]].probe) {
          outcome := Join(queued[i]);
          if forced {
            builds := builds[queued[i] := builds[queued[i]].(forced := true)];
          }
          return;
        }
        i := i + 1;
      }
      if running.Some? && ProbeSuits(want, builds[running.value].probe) {
        if !forced || builds[running.value].startedAt.value >= arrived {
          if forced {
            builds := builds[running.value := builds[running.value].(forced := true)];
          }
          outcome := Join(running.value);
          return;
        }
      }
      if !forced && current.Some? && cfg.ttl > 0 && arrived - at < cfg.ttl && ProbeSuits(want, probe) {
        outcome := Held(current.value);
        return;
      }
      var id := |builds|;
      if running.Some? {
        builds := builds + [Build(None, forced, want, false, None, None)];
        queued := queued + [id];
        outcome := Create(id, false);
        return;
      }
      builds := builds + [Build(Some(arrived), forced, want, false, None, None)];
      running := Some(id);
      outcome := Create(id, true);
    }

    /** One turn of `drain` between taking and releasing `mu`; the result is the build to run next. */
    method PublishLocked(b: nat, out: Overview, now: int) returns (next: Option<nat>)
      requires State().Sound() && b < |builds| && builds[b].startedAt.Some?
      modifies this
      ensures State() == Published(cfg, old(State()), b, out, now)
      ensures next == running
    {
      var previous := current;
      builds := builds[b := builds[b].(result := Some(out))];
      current, at, probe := Some(out), builds[b].startedAt.value, builds[b].probe;
      if cfg.listening {
        pending := pending + [Notice(previous, out, builds[b].forced)];
      }
      next := None;
      if |queued| > 0 {
        next, queued := Some(queued[0]), queued[1..];
        builds := builds[next.value := builds[next.value].(startedAt := Some(now))];
      }
      running := next;
    }

    /** One turn of `flush` between taking and releasing `mu`. */
    method TakeNotice() returns (n: Option<Notice>)
      modifies this`pending
      ensures n == if old(pending) == [] then None else Some(old(pending)[0])
      ensures pending == if old(pending) == [] then [] else old(pending)[1..]
    {
      if |pending| == 0 {
        return None;
      }
      n := Some(pending[0]);
      pending := pending[1..];
    }

    /** What a cancelled caller is given: the held build, or the zero payload. */
    method PeekOrEmpty() returns (out: Overview)
      ensures out == current.GetOr(Empty)
    {
      out := if current.None? then Empty else current.value;
    }
  }
}
