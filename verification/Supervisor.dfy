/**
 Lease supervision (supervisor.rs): the monitor's decisions, the supervising loop, and
 the timing argument that the run stops before its lease can pass to another worker.
 Times are whole nanoseconds on one clock.
 */
module Supervisor {
  import opened Common

  const SECOND: nat := 1_000_000_000

  datatype Config = Config(heartbeatSeconds: nat, leaseSeconds: nat, runTimeout: nat)

  /** The bounds configuration validation enforces. */
  predicate Validated(config: Config) {
    5 <= config.heartbeatSeconds <= 300 && 30 <= config.leaseSeconds <= 86_400
    && 3 * config.heartbeatSeconds < config.leaseSeconds
  }

  function Heartbeat(config: Config): nat { config.heartbeatSeconds * SECOND }

  function Lease(config: Config): nat { config.leaseSeconds * SECOND }

  function UncertaintyLimit(config: Config): nat {
    var twice := Min(config.heartbeatSeconds * 2, U64_MAX);
    Max(SaturatingSub(config.leaseSeconds, twice), config.heartbeatSeconds) * SECOND
  }

  /** `grantedAt` is when the control plane extended the lease; the worker never sees it. */
  datatype Renewal = Granted(rowVersion: int, grantedAt: nat) | Lost | Unavailable

  datatype Decision = Continue(healthy: bool, rowVersion: int) | StopLeaseLost | StopTimedOut | StopShutdown

  /** What one pass of the loop meets: the stop flag, the clock, and the control plane's answers. */
  datatype Pass = Pass(stop: bool, checkedAt: nat, shutdown: bool, heartbeatOk: bool, renewal: Renewal, observedAt: nat)

  datatype Snapshot = Snapshot(
    executionRunning: bool, healthy: bool, leaseLost: bool, timedOut: bool, rowVersion: int,
    startedAt: nat, lastSuccess: nat, leasedAt: nat, exited: bool)

  function Start(now: nat, claimedAt: nat, rowVersion: int): Snapshot {
    Snapshot(true, true, false, false, rowVersion, now, now, claimedAt, false)
  }

  // ---------------------------------------------------------------- decisions

  function BeforeRenewal(config: Config, startedAt: nat, now: nat, shutdown: bool): Option<Decision> {
    if shutdown then Some(StopShutdown)
    else if SaturatingSub(now, startedAt) >= config.runTimeout then Some(StopTimedOut)
    else None
  }

  function Observation(config: Config, lastSuccess: nat, now: nat, heartbeatOk: bool, renewal: Renewal): Decision {
    match renewal
    case Granted(rowVersion, _) => Continue(heartbeatOk, rowVersion)
    case Lost => StopLeaseLost
    case Unavailable =>
      if SaturatingSub(now, lastSuccess) >= UncertaintyLimit(config) then StopLeaseLost else Continue(false, 0)
  }

  function Step(config: Config, s: Snapshot, pass: Pass): Snapshot {
    if s.exited then s
    else if pass.stop then s.(exited := true)
    else
      match BeforeRenewal(config, s.startedAt, pass.checkedAt, pass.shutdown)
      case Some(decision) =>
        s.(timedOut := s.timedOut || decision == StopTimedOut, executionRunning := false, exited := true)
      case None =>
        match Observation(config, s.lastSuccess, pass.observedAt, pass.heartbeatOk, pass.renewal)
        case Continue(healthy, rowVersion) =>
          if pass.renewal.Granted? then
            s.(healthy := healthy, rowVersion := rowVersion, lastSuccess := pass.observedAt,
               leasedAt := pass.renewal.grantedAt)
          else s.(healthy := healthy)
        case _ => s.(healthy := false, leaseLost := true, executionRunning := false, exited := true)
  }

  function Run(config: Config, s: Snapshot, passes: seq<Pass>): Snapshot {
    if passes == [] then s
    else Step(config, Run(config, s, passes[..|passes| - 1]), passes[|passes| - 1])
  }

  // ---------------------------------------------------------------- the monitor and the loop

  class LeaseMonitor {
    const startedAt: nat
    var lastLeaseSuccess: nat
    const uncertaintyLimit: nat
    const config: Config

    ghost predicate Valid()
      reads this
    {
      uncertaintyLimit == UncertaintyLimit(config)
    }

    constructor (now: nat, config: Config)
      ensures Valid() && this.config == config && startedAt == now && lastLeaseSuccess == now
    {
      this.config := config;
      startedAt, lastLeaseSuccess := now, now;
      uncertaintyLimit := UncertaintyLimit(config);
    }

    method Check(now: nat, shutdown: bool) returns (decision: Option<Decision>)
      ensures decision == BeforeRenewal(config, startedAt, now, shutdown)
    {
      if shutdown {
        return Some(StopShutdown);
      }
      if SaturatingSub(now, startedAt) >= config.runTimeout {
        return Some(StopTimedOut);
      }
      return None;
    }

    method Observe(now: nat, heartbeatOk: bool, renewal: Renewal) returns (decision: Decision)
      requires Valid()
      modifies this
      ensures Valid()
      ensures decision == Observation(config, old(lastLeaseSuccess), now, heartbeatOk, renewal)
      ensures lastLeaseSuccess == if renewal.Granted? then now else old(lastLeaseSuccess)
    {
      match renewal {
        case Granted(rowVersion, _) =>
          lastLeaseSuccess := now;
          return Continue(heartbeatOk, rowVersion);
        case Lost =>
          return StopLeaseLost;
        case Unavailable =>
          if SaturatingSub(now, lastLeaseSuccess) >= uncertaintyLimit {
            return StopLeaseLost;
          }
          return Continue(false, 0);
      }
    }
  }

  class RunSupervisor {
    var executionRunning: bool
    var healthy: bool
    var leaseLost: bool
    var timedOut: bool
    var rowVersion: int

    constructor (rowVersion: int)
      ensures executionRunning && healthy && !leaseLost && !timedOut && this.rowVersion == rowVersion
    {
      executionRunning, healthy, leaseLost, timedOut := true, true, false, false;
      this.rowVersion := rowVersion;
    }

    ghost predicate Shows(s: Snapshot)
      reads this
    {
      s.executionRunning == executionRunning && s.healthy == healthy && s.leaseLost == leaseLost
      && s.timedOut == timedOut && s.rowVersion == rowVersion
    }

    /** One pass of the loop; true when the loop breaks. */
    method MakePass(monitor: LeaseMonitor, ghost s: Snapshot, pass: Pass) returns (broke: bool)
      requires monitor.Valid() && Shows(s) && !s.exited
      requires monitor.startedAt == s.startedAt && monitor.lastLeaseSuccess == s.lastSuccess
      modifies this, monitor
      ensures monitor.Valid() && Shows(Step(monitor.config, s, pass))
      ensures broke == Step(monitor.config, s, pass).exited
      ensures monitor.lastLeaseSuccess == Step(monitor.config, s, pass).lastSuccess
    {
      if pass.stop {
        return true;
      }
      var decision := monitor.Check(pass.checkedAt, pass.shutdown);
      if decision.Some? {
        if decision.value == StopTimedOut {
          timedOut := true;
        }
        executionRunning := false;
        return true;
      }
      var outcome := monitor.Observe(pass.observedAt, pass.heartbeatOk, pass.renewal);
      if outcome.Continue? {
        healthy := outcome.healthy;
        if pass.renewal.Granted? {
          rowVersion := outcome.rowVersion;
        }
        return false;
      }
      healthy := false;
      leaseLost := true;
      executionRunning := false;
      return true;
    }

    /** The supervising thread, over the passes it gets to make. */
    method Supervise(config: Config, startedAt: nat, ghost claimedAt: nat, passes: seq<Pass>)
      requires Shows(Start(startedAt, claimedAt, rowVersion))
      modifies this
      ensures Shows(Run(config, Start(startedAt, claimedAt, old(rowVersion)), passes))
    {
      hide Step;
      var monitor := new LeaseMonitor(startedAt, config);
      ghost var start := Start(startedAt, claimedAt, rowVersion);
      ghost var s := start;
      var i := 0;
      while i < |passes|
        invariant 0 <= i <= |passes| && monitor.Valid() && fresh(monitor) && monitor.config == config
        invariant s == Run(config, start, passes[..i]) && !s.exited
        invariant Shows(s) && s.startedAt == startedAt
        invariant monitor.startedAt == startedAt && monitor.lastLeaseSuccess == s.lastSuccess
      {
        assert passes[..i + 1][..i] == passes[..i];
        ghost var next := Step(config, s, passes[i]);
        StartStays(config, s, passes[i]);
        var broke := MakePass(monitor, s, passes[i]);
        if broke {
          ExitedStays(config, start, passes, i + 1);
          return;
        }
        s := next;
        i := i + 1;
      }
      assert passes[..|passes|] == passes;
    }
  }

  lemma StartStays(config: Config, s: Snapshot, pass: Pass)
    ensures Step(config, s, pass).startedAt == s.startedAt
  {
  }

  lemma {:induction false} ExitedStays(config: Config, s: Snapshot, passes: seq<Pass>, k: nat)
    requires k <= |passes| && Run(config, s, passes[..k]).exited
    ensures Run(config, s, passes) == Run(config, s, passes[..k])
  {
    if k < |passes| {
      assert passes[..|passes| - 1][..k] == passes[..k];
      ExitedStays(config, s, passes[..|passes| - 1], k);
    } else {
      assert passes[..k] == passes;
    }
  }

  // ---------------------------------------------------------------- flags over whole runs

  /** Row versions the control plane handed out during a run. */
  function GrantedVersions(passes: seq<Pass>): set<int> {
    set pass | pass in passes && pass.renewal.Granted? :: pass.renewal.rowVersion
  }

  /** The flags over any two points of a run: once raised they stay, and the row version comes from a renewal. */
  lemma {:induction false} FlagsOverRuns(config: Config, s: Snapshot, passes: seq<Pass>)
    requires !(s.leaseLost && s.timedOut) && (s.leaseLost || s.timedOut ==> s.exited && !s.executionRunning)
    ensures var t := Run(config, s, passes);
      && (s.leaseLost ==> t.leaseLost) && (s.timedOut ==> t.timedOut) && (!s.executionRunning ==> !t.executionRunning)
      && !(t.leaseLost && t.timedOut)
      && (t.leaseLost || t.timedOut ==> t.exited && !t.executionRunning)
      && (t.rowVersion == s.rowVersion || t.rowVersion in GrantedVersions(passes))
  {
    if passes != [] {
      FlagsOverRuns(config, s, passes[..|passes| - 1]);
      assert forall pass :: pass in passes[..|passes| - 1] ==> pass in passes;
      assert passes[|passes| - 1] in passes;
    }
  }

  // ---------------------------------------------------------------- exactly what stops a run

  /** When the lease was last granted among the first `k` passes, or else the start. */
  function LastGrant(startedAt: nat, passes: seq<Pass>, k: nat): nat
    requires k <= |passes|
  {
    if k == 0 then startedAt
    else if passes[k - 1].renewal.Granted? then passes[k - 1].observedAt
    else LastGrant(startedAt, passes, k - 1)
  }

  /** The row version that came with it. */
  function LastVersion(rowVersion: int, passes: seq<Pass>, k: nat): int
    requires k <= |passes|
  {
    if k == 0 then rowVersion
    else if passes[k - 1].renewal.Granted? then passes[k - 1].renewal.rowVersion
    else LastVersion(rowVersion, passes, k - 1)
  }

  /** What ends the supervision of a run. */
  datatype Cause = OwnerStopped | Shutdown | TimedOut | LeaseLost

  /** At least the limit has passed. */
  predicate Waited(from: nat, to: nat, limit: nat) { limit == 0 || from + limit <= to }

  /** The run had been going for its timeout when the pass began. */
  predicate Elapsed(config: Config, startedAt: nat, pass: Pass) { Waited(startedAt, pass.checkedAt, config.runTimeout) }

  /** The lease was refused, or unanswered for the whole limit since it was last granted. */
  predicate Expired(config: Config, startedAt: nat, passes: seq<Pass>, k: nat)
    requires k < |passes|
  {
    || passes[k].renewal.Lost?
    || (passes[k].renewal.Unavailable?
        && Waited(LastGrant(startedAt, passes, k), passes[k].observedAt, UncertaintyLimit(config)))
  }

  /** What stops the run at the `k`th pass, if it comes to it; the earlier cause counts. */
  function CauseAt(config: Config, startedAt: nat, passes: seq<Pass>, k: nat): Option<Cause>
    requires k < |passes|
  {
    if passes[k].stop then Some(OwnerStopped)
    else if passes[k].shutdown then Some(Shutdown)
    else if Elapsed(config, startedAt, passes[k]) then Some(TimedOut)
    else if Expired(config, startedAt, passes, k) then Some(LeaseLost)
    else None
  }

  predicate NoCause(config: Config, startedAt: nat, passes: seq<Pass>, k: nat)
    requires k <= |passes|
  {
    forall i :: 0 <= i < k ==> CauseAt(config, startedAt, passes, i).None?
  }

  lemma {:induction false} GrantsOfPrefix(startedAt: nat, rowVersion: int, passes: seq<Pass>, n: nat, k: nat)
    requires k <= n <= |passes|
    ensures LastGrant(startedAt, passes[..n], k) == LastGrant(startedAt, passes, k)
    ensures LastVersion(rowVersion, passes[..n], k) == LastVersion(rowVersion, passes, k)
  {
    if k > 0 {
      GrantsOfPrefix(startedAt, rowVersion, passes, n, k - 1);
    }
  }

  lemma CausesOfPrefix(config: Config, startedAt: nat, passes: seq<Pass>, n: nat)
    requires n <= |passes|
    ensures forall k :: 0 <= k < n ==> CauseAt(config, startedAt, passes[..n], k) == CauseAt(config, startedAt, passes, k)
  {
    hide UncertaintyLimit, LastGrant;
    forall k | 0 <= k < n ensures CauseAt(config, startedAt, passes[..n], k) == CauseAt(config, startedAt, passes, k) {
      GrantsOfPrefix(startedAt, 0, passes, n, k);
    }
  }

  /** One pass of a run that is still going. */
  lemma PassDecides(config: Config, s: Snapshot, startedAt: nat, passes: seq<Pass>, k: nat)
    requires k < |passes| && !s.exited && s.startedAt == startedAt && s.lastSuccess == LastGrant(startedAt, passes, k)
    ensures var t := Step(config, s, passes[k]);
      match CauseAt(config, startedAt, passes, k)
      case None =>
        var granted := passes[k].renewal.Granted?;
        t == s.(healthy := granted && passes[k].heartbeatOk,
                rowVersion := if granted then passes[k].renewal.rowVersion else s.rowVersion,
                lastSuccess := if granted then passes[k].observedAt else s.lastSuccess,
                leasedAt := if granted then passes[k].renewal.grantedAt else s.leasedAt)
      case Some(OwnerStopped) => t == s.(exited := true)
      case Some(Shutdown) => t == s.(executionRunning := false, exited := true)
      case Some(TimedOut) => t == s.(timedOut := true, executionRunning := false, exited := true)
      case Some(LeaseLost) => t == s.(healthy := false, leaseLost := true, executionRunning := false, exited := true)
  {
    hide UncertaintyLimit, LastGrant;
  }

  /** A run nothing has stopped is going, and knows the last grant. */
  lemma {:induction false} GoesOn(config: Config, startedAt: nat, claimedAt: nat, rowVersion: int, passes: seq<Pass>)
    requires NoCause(config, startedAt, passes, |passes|)
    ensures var s := Run(config, Start(startedAt, claimedAt, rowVersion), passes);
      && !s.exited && s.executionRunning && !s.leaseLost && !s.timedOut && s.startedAt == startedAt
      && s.lastSuccess == LastGrant(startedAt, passes, |passes|)
      && s.rowVersion == LastVersion(rowVersion, passes, |passes|)
      && s.healthy == (passes == [] || (passes[|passes| - 1].renewal.Granted? && passes[|passes| - 1].heartbeatOk))
  {
    hide Step, CauseAt, UncertaintyLimit;
    if passes != [] {
      var k := |passes| - 1;
      CausesOfPrefix(config, startedAt, passes, k);
      GoesOn(config, startedAt, claimedAt, rowVersion, passes[..k]);
      GrantsOfPrefix(startedAt, rowVersion, passes, k, k);
      PassDecides(config, Run(config, Start(startedAt, claimedAt, rowVersion), passes[..k]), startedAt, passes, k);
    }
  }

  /** A run is stopped by the first pass that has a cause, with that cause's flags and no others. */
  lemma StopsAt(config: Config, startedAt: nat, claimedAt: nat, rowVersion: int, passes: seq<Pass>, k: nat)
    requires k < |passes| && NoCause(config, startedAt, passes, k) && CauseAt(config, startedAt, passes, k).Some?
    ensures var s := Run(config, Start(startedAt, claimedAt, rowVersion), passes);
      var cause := CauseAt(config, startedAt, passes, k).value;
      && s.exited && (s.executionRunning <==> cause == OwnerStopped)
      && (s.leaseLost <==> cause == LeaseLost) && (s.timedOut <==> cause == TimedOut)
      && s.rowVersion == LastVersion(rowVersion, passes, k) && (cause == LeaseLost ==> !s.healthy)
  {
    hide Step, CauseAt, UncertaintyLimit, Run;
    var start := Start(startedAt, claimedAt, rowVersion);
    CausesOfPrefix(config, startedAt, passes, k);
    GoesOn(config, startedAt, claimedAt, rowVersion, passes[..k]);
    GrantsOfPrefix(startedAt, rowVersion, passes, k, k);
    PassDecides(config, Run(config, start, passes[..k]), startedAt, passes, k);
    OneMorePass(config, start, passes, k);
    ExitedStays(config, start, passes, k + 1);
  }

  lemma OneMorePass(config: Config, s: Snapshot, passes: seq<Pass>, k: nat)
    requires k < |passes|
    ensures Run(config, s, passes[..k + 1]) == Step(config, Run(config, s, passes[..k]), passes[k])
  {
    assert passes[..k + 1][..k] == passes[..k];
  }

  /**
   Over every run: the loop has stopped if and only if some pass met the stop flag, a
   shutdown, the run's timeout, a refused lease or silence for the whole limit since the last
   grant; and the flags tell exactly which came first.
   */
  lemma StoppedExactly(config: Config, startedAt: nat, claimedAt: nat, rowVersion: int, passes: seq<Pass>)
    ensures var s := Run(config, Start(startedAt, claimedAt, rowVersion), passes);
      && (s.exited <==> exists k :: 0 <= k < |passes| && CauseAt(config, startedAt, passes, k).Some?)
      && (s.leaseLost <==> exists k ::
            0 <= k < |passes| && NoCause(config, startedAt, passes, k)
            && CauseAt(config, startedAt, passes, k) == Some(LeaseLost))
      && (s.timedOut <==> exists k ::
            0 <= k < |passes| && NoCause(config, startedAt, passes, k)
            && CauseAt(config, startedAt, passes, k) == Some(TimedOut))
      && (!s.executionRunning <==> exists k ::
            0 <= k < |passes| && NoCause(config, startedAt, passes, k)
            && CauseAt(config, startedAt, passes, k).Some? && CauseAt(config, startedAt, passes, k) != Some(OwnerStopped))
  {
    hide CauseAt, Run;
    if NoCause(config, startedAt, passes, |passes|) {
      GoesOn(config, startedAt, claimedAt, rowVersion, passes);
    } else {
      var i :| 0 <= i < |passes| && CauseAt(config, startedAt, passes, i).Some?;
      var k := FirstCause(config, startedAt, passes, i);
      StopsAt(config, startedAt, claimedAt, rowVersion, passes, k);
      forall j | 0 <= j < |passes| && NoCause(config, startedAt, passes, j) && CauseAt(config, startedAt, passes, j).Some?
        ensures j == k
      {
      }
    }
  }

  lemma FirstCause(config: Config, startedAt: nat, passes: seq<Pass>, i: nat) returns (k: nat)
    requires i < |passes| && CauseAt(config, startedAt, passes, i).Some?
    ensures k <= i && NoCause(config, startedAt, passes, k) && CauseAt(config, startedAt, passes, k).Some?
  {
    hide CauseAt;
    k := 0;
    while CauseAt(config, startedAt, passes, k).None?
      invariant k <= i && NoCause(config, startedAt, passes, k)
      decreases i - k
    {
      k := k + 1;
    }
  }

  // ---------------------------------------------------------------- timing

  /**
   One pass on time: it begins after the sleep that follows the previous observation
   (`earliest`), is over by `latest`, and a grant is seen within `delay`.
   */
  predicate OnTime(delay: nat, earliest: nat, latest: nat, pass: Pass) {
    earliest <= pass.checkedAt <= pass.observedAt <= latest
    && (pass.renewal.Granted? ==>
      pass.checkedAt <= pass.renewal.grantedAt <= pass.observedAt <= pass.renewal.grantedAt + delay)
  }

  predicate Timely(config: Config, delay: nat, startedAt: nat, passes: seq<Pass>) {
    forall i :: 0 <= i < |passes| ==>
      if i == 0 then OnTime(delay, startedAt, startedAt + delay, passes[0])
      else
        var previous := passes[i - 1].observedAt;
        OnTime(delay, previous + Heartbeat(config), previous + Heartbeat(config) + delay, passes[i])
  }

  function LastObserved(startedAt: nat, passes: seq<Pass>): nat {
    if passes == [] then startedAt else passes[|passes| - 1].observedAt
  }

  /**
   The run was still executing through the whole of the last pass, and by the end of that
   pass the lease in force when it began had expired.
   */
  predicate Overruns(config: Config, startedAt: nat, claimedAt: nat, passes: seq<Pass>) {
    passes != []
    && var before := Run(config, Start(startedAt, claimedAt, 0), passes[..|passes| - 1]);
    !before.exited && passes[|passes| - 1].observedAt > before.leasedAt + Lease(config)
  }

  /** No timely run, under any run timeout, executes past the expiry of its last granted lease. */
  ghost predicate LeaseSafe(heartbeatSeconds: nat, leaseSeconds: nat, delay: nat) {
    forall runTimeout: nat, startedAt: nat, claimedAt: nat, passes: seq<Pass> ::
      var config := Config(heartbeatSeconds, leaseSeconds, runTimeout);
      claimedAt <= startedAt <= claimedAt + delay && Timely(config, delay, startedAt, passes)
      ==> !Overruns(config, startedAt, claimedAt, passes)
  }

  /** Executing, and the last success is recent enough for the next pass to be in time. */
  ghost predicate WithinLimit(config: Config, delay: nat, s: Snapshot, observed: nat) {
    s.lastSuccess <= observed < s.lastSuccess + UncertaintyLimit(config)
    && s.leasedAt <= s.lastSuccess <= s.leasedAt + delay && s.executionRunning
  }

  lemma StepWithinLimit(config: Config, delay: nat, s: Snapshot, observed: nat, pass: Pass, earliest: nat, latest: nat)
    requires UncertaintyLimit(config) > 0 && WithinLimit(config, delay, s, observed)
    requires OnTime(delay, earliest, latest, pass) && observed <= earliest && !s.exited
    requires !Step(config, s, pass).exited
    ensures WithinLimit(config, delay, Step(config, s, pass), pass.observedAt)
  {
    hide UncertaintyLimit;
  }

  lemma TimelyPrefix(config: Config, delay: nat, startedAt: nat, passes: seq<Pass>)
    requires passes != [] && Timely(config, delay, startedAt, passes)
    ensures Timely(config, delay, startedAt, passes[..|passes| - 1])
    ensures var front := passes[..|passes| - 1];
      var earliest := LastObserved(startedAt, front) + (if front == [] then 0 else Heartbeat(config));
      OnTime(delay, earliest, earliest + delay, passes[|passes| - 1])
  {
    hide OnTime;
    var front := passes[..|passes| - 1];
    assert forall i :: 0 <= i < |front| ==> front[i] == passes[i];
  }

  lemma {:induction false} StillWithinLimit(config: Config, delay: nat, startedAt: nat, claimedAt: nat, passes: seq<Pass>)
    requires Validated(config)
    requires claimedAt <= startedAt <= claimedAt + delay && Timely(config, delay, startedAt, passes)
    requires !Run(config, Start(startedAt, claimedAt, 0), passes).exited
    ensures WithinLimit(config, delay, Run(config, Start(startedAt, claimedAt, 0), passes), LastObserved(startedAt, passes))
  {
    assert UncertaintyLimit(config) > 0;
    if passes != [] {
      hide UncertaintyLimit, Validated, WithinLimit, OnTime, Step;
      var front, last := passes[..|passes| - 1], passes[|passes| - 1];
      TimelyPrefix(config, delay, startedAt, passes);
      var s := Run(config, Start(startedAt, claimedAt, 0), front);
      if s.exited {
        ExitStops(config, s, last);
      }
      StillWithinLimit(config, delay, startedAt, claimedAt, front);
      var gap := if front == [] then 0 else Heartbeat(config);
      var observed := LastObserved(startedAt, front);
      StepWithinLimit(config, delay, s, observed, last, observed + gap, observed + gap + delay);
    }
  }

  lemma ExitStops(config: Config, s: Snapshot, pass: Pass)
    requires s.exited
    ensures Step(config, s, pass) == s
  {
  }

  /** Safety, for every configuration validation accepts and every latency up to half a heartbeat. */
  lemma LeaseSafety(heartbeatSeconds: nat, leaseSeconds: nat, delay: nat)
    requires Validated(Config(heartbeatSeconds, leaseSeconds, 0))
    requires 2 * delay <= heartbeatSeconds * SECOND + 1
    ensures LeaseSafe(heartbeatSeconds, leaseSeconds, delay)
  {
    forall runTimeout: nat, startedAt: nat, claimedAt: nat, passes: seq<Pass> |
      var config := Config(heartbeatSeconds, leaseSeconds, runTimeout);
      claimedAt <= startedAt <= claimedAt + delay && Timely(config, delay, startedAt, passes)
      && Overruns(config, startedAt, claimedAt, passes)
      ensures false
    {
      var config := Config(heartbeatSeconds, leaseSeconds, runTimeout);
      hide Run, Timely, UncertaintyLimit;
      TimelyPrefix(config, delay, startedAt, passes);
      StillWithinLimit(config, delay, startedAt, claimedAt, passes[..|passes| - 1]);
      LimitValue(config);
    }
  }

  lemma LimitValue(config: Config)
    requires Validated(config)
    ensures UncertaintyLimit(config) == Lease(config) - 2 * Heartbeat(config)
  {
  }

  /** Every way the loop stops by itself clears the flag: only the owner's own stop leaves it set. */
  lemma {:induction false} StoppingClearsExecution(config: Config, s: Snapshot, passes: seq<Pass>)
    requires !s.exited && forall pass :: pass in passes ==> !pass.stop
    ensures Run(config, s, passes).exited ==> !Run(config, s, passes).executionRunning
  {
    if passes != [] {
      StoppingClearsExecution(config, s, passes[..|passes| - 1]);
    }
  }

  // ---------------------------------------------------------------- the latency bound cannot be relaxed

  function Silence(at: nat): Pass { Pass(false, at, false, true, Unavailable, at) }

  /** Passes without an answer, each a legal gap after the one before. */
  predicate Gapped(heartbeat: nat, delay: nat, from: nat, passes: seq<Pass>)
    decreases |passes|
  {
    passes == []
    || (var at := passes[0].observedAt;
        passes[0] == Silence(at) && from + heartbeat <= at <= from + heartbeat + delay
        && Gapped(heartbeat, delay, at, passes[1..]))
  }

  /** Such passes, ending exactly `span` after `from`. */
  function SilentPasses(heartbeat: nat, delay: nat, from: nat, span: nat, count: nat): (passes: seq<Pass>)
    requires count * heartbeat <= span <= count * (heartbeat + delay)
    ensures |passes| == count && Gapped(heartbeat, delay, from, passes)
    ensures forall i :: 0 <= i < count ==> passes[i] == Silence(passes[i].observedAt)
    ensures forall i :: 0 <= i < count ==> from <= passes[i].observedAt <= from + span
    ensures count > 0 ==> passes[count - 1].observedAt == from + span
    decreases count
  {
    if count == 0 then [] else
    var gap := Min(heartbeat + delay, span - (count - 1) * heartbeat);
    assert (count - 1) * heartbeat + heartbeat == count * heartbeat;
    assert (count - 1) * (heartbeat + delay) + heartbeat + delay == count * (heartbeat + delay);
    [Silence(from + gap)] + SilentPasses(heartbeat, delay, from + gap, span - gap, count - 1)
  }

  lemma {:induction false} SilenceKeepsRunning(config: Config, startedAt: nat, claimedAt: nat, passes: seq<Pass>)
    requires forall i :: 0 <= i < |passes| ==> passes[i] == Silence(passes[i].observedAt)
    requires forall i :: 0 <= i < |passes| ==>
      startedAt <= passes[i].observedAt < startedAt + UncertaintyLimit(config)
      && passes[i].observedAt < startedAt + config.runTimeout
    ensures var s := Run(config, Start(startedAt, claimedAt, 0), passes);
      !s.exited && s.lastSuccess == startedAt && s.leasedAt == claimedAt && s.startedAt == startedAt
  {
    if passes != [] {
      SilenceKeepsRunning(config, startedAt, claimedAt, passes[..|passes| - 1]);
    }
  }

  /** A first pass at `first` and `count` legal gaps can end exactly `span` after the start. */
  predicate Reaches(heartbeat: nat, delay: nat, span: nat, first: nat, count: nat) {
    count >= 1 && first <= delay && first <= span && count * heartbeat <= span - first <= count * (heartbeat + delay)
  }

  lemma GapsReach(heartbeat: nat, delay: nat, span: nat) returns (first: nat, count: nat)
    requires heartbeat > 0 && 2 * delay > heartbeat && span >= heartbeat
    ensures Reaches(heartbeat, delay, span, first, count)
  {
    count := span / heartbeat;
    assert span == count * heartbeat + span % heartbeat;
    if count == 1 {
      first := if span <= heartbeat + delay then 0 else span - heartbeat - delay;
    } else {
      first := 0;
      TwoGapsMakeUp(heartbeat, delay, span, count);
    }
  }

  lemma TwoGapsMakeUp(heartbeat: nat, delay: nat, span: nat, count: nat)
    requires count >= 2 && 2 * delay > heartbeat && span < count * heartbeat + heartbeat
    ensures span <= count * (heartbeat + delay)
  {
    assert count * delay >= 2 * delay;
    assert count * (heartbeat + delay) == count * heartbeat + count * delay;
  }

  /** A pass without an answer, and in time, keeps a run timely. */
  lemma SilenceExtends(config: Config, delay: nat, startedAt: nat, front: seq<Pass>, at: nat)
    requires Timely(config, delay, startedAt, front)
    requires var earliest := LastObserved(startedAt, front) + (if front == [] then 0 else Heartbeat(config));
      earliest <= at <= earliest + delay
    ensures Timely(config, delay, startedAt, front + [Silence(at)])
  {
    var passes := front + [Silence(at)];
    forall i | 0 < i < |passes|
      ensures OnTime(delay, passes[i - 1].observedAt + Heartbeat(config),
                     passes[i - 1].observedAt + Heartbeat(config) + delay, passes[i])
    {
      assert passes[i - 1] == front[i - 1];
      assert i < |front| ==> passes[i] == front[i];
    }
  }

  lemma {:induction false} SilenceIsTimely(config: Config, delay: nat, startedAt: nat, front: seq<Pass>, silent: seq<Pass>)
    requires Timely(config, delay, startedAt, front) && front != []
    requires Gapped(Heartbeat(config), delay, LastObserved(startedAt, front), silent)
    ensures Timely(config, delay, startedAt, front + silent)
    decreases |silent|
  {
    hide Timely, Heartbeat;
    if silent == [] {
      assert front + silent == front;
    } else {
      SilenceExtends(config, delay, startedAt, front, silent[0].observedAt);
      SilenceIsTimely(config, delay, startedAt, front + [silent[0]], silent[1..]);
      assert front + silent == front + [silent[0]] + silent[1..];
    }
  }

  /** Above the bound: silence until just before the limit, then one more gap. */
  lemma LateStop(config: Config, delay: nat) returns (passes: seq<Pass>)
    requires Validated(config) && 2 * delay > Heartbeat(config) + 1
    requires config.runTimeout > Lease(config) + 2 * delay
    ensures Timely(config, delay, delay, passes) && Overruns(config, delay, 0, passes)
  {
    hide Run, Step, UncertaintyLimit, Timely, Reaches;
    LimitValue(config);
    var heartbeat, limit := Heartbeat(config), UncertaintyLimit(config);
    var first, count := GapsReach(heartbeat, delay, limit - 1);
    ReachFacts(heartbeat, delay, limit - 1, first, count);
    var silent := SilentPasses(heartbeat, delay, delay + first, limit - 1 - first, count);
    NothingIsTimely(config, delay, delay);
    SilenceExtends(config, delay, delay, [], delay + first);
    assert [] + [Silence(delay + first)] == [Silence(delay + first)];
    SilenceIsTimely(config, delay, delay, [Silence(delay + first)], silent);
    var front := [Silence(delay + first)] + silent;
    var last := delay + limit - 1 + heartbeat + delay;
    SilenceExtends(config, delay, delay, front, last);
    passes := front + [Silence(last)];
    SilenceKeepsRunning(config, delay, 0, front);
    assert passes[..|passes| - 1] == front;
  }

  lemma NothingIsTimely(config: Config, delay: nat, startedAt: nat)
    ensures Timely(config, delay, startedAt, [])
  {
  }

  lemma ReachFacts(heartbeat: nat, delay: nat, span: nat, first: nat, count: nat)
    requires Reaches(heartbeat, delay, span, first, count)
    ensures count >= 1 && first <= delay && first <= span
    ensures count * heartbeat <= span - first <= count * (heartbeat + delay)
  {
  }

  /**
   The latency bound is exact: for every configuration validation accepts, the supervisor is
   safe for every timely run if and only if twice the latency is at most a heartbeat (and the
   one nanosecond that counting in whole ticks allows).
   */
  lemma LeaseSafetyIsTight(heartbeatSeconds: nat, leaseSeconds: nat, delay: nat)
    requires Validated(Config(heartbeatSeconds, leaseSeconds, 0))
    ensures LeaseSafe(heartbeatSeconds, leaseSeconds, delay) <==> 2 * delay <= heartbeatSeconds * SECOND + 1
  {
    hide Timely, Overruns;
    if 2 * delay <= heartbeatSeconds * SECOND + 1 {
      LeaseSafety(heartbeatSeconds, leaseSeconds, delay);
    } else {
      var runTimeout := leaseSeconds * SECOND + 2 * delay + 1;
      var config := Config(heartbeatSeconds, leaseSeconds, runTimeout);
      var passes := LateStop(config, delay);
      assert !LeaseSafe(heartbeatSeconds, leaseSeconds, delay);
    }
  }
}
