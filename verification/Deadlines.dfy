/** Deadlines of executions: their own limits, nested sub-workflows, and resuming after a wait. */
module Deadlines {
  import opened Wrappers

  /** Milliseconds since the epoch; `None` is no deadline. */
  type Deadline = Option<int>

  const MS_PER_SECOND := 1000

  /** Global settings in seconds. */
  datatype Config = Config(timeout: int, maxTimeout: int)

  function Min(a: int, b: int): int {
    if a <= b then a else b
  }

  function Max(a: int, b: int): int {
    if a >= b then a else b
  }

  /** `a` comes no later than `b`. */
  predicate NoLater(a: Deadline, b: Deadline) {
    b.Some? ==> a.Some? && a.value <= b.value
  }

  // ---- One execution ----

  /** A non-positive maximum clamps nothing. */
  function Clamp(seconds: int, config: Config): int {
    if config.maxTimeout > 0 then Min(seconds, config.maxTimeout) else seconds
  }

  /** The deadline of a sub-workflow by its own settings. */
  function DetermineWorkflowDeadline(startTime: int, setting: Option<int>, config: Config): Deadline {
    if setting.Some? then
      if setting.value <= 0 then None else Some(startTime + Clamp(setting.value, config) * MS_PER_SECOND)
    else if config.timeout > 0 then Some(startTime + Clamp(config.timeout, config) * MS_PER_SECOND)
    else None
  }

  /** The limit in seconds the runner applies to a workflow it runs itself. */
  function RunnerLimit(setting: Option<int>, config: Config): int {
    var limit := if setting.Some? then setting.value else config.timeout;
    if limit > 0 then Min(limit, config.maxTimeout) else limit
  }

  function RunnerTimestamp(now: int, setting: Option<int>, config: Config): Deadline {
    var limit := RunnerLimit(setting, config);
    if limit <= 0 then None else Some(now + limit * MS_PER_SECOND)
  }

  /** The limit a workflow asks for: its own setting, or the global one when it has none. */
  function Asked(setting: Option<int>, config: Config): int {
    if setting.Some? then setting.value else config.timeout
  }

  /** `limit` is the smaller of the two. */
  predicate Smaller(limit: int, a: int, b: int) {
    (limit == a || limit == b) && limit <= a && limit <= b
  }

  /** With a positive maximum both deadlines are missing exactly when no limit is asked for, and otherwise come after
      the limit asked for or the maximum, whichever is smaller. */
  lemma OwnDeadlineExactly(start: int, setting: Option<int>, config: Config)
    requires config.maxTimeout > 0
    ensures var d, asked := DetermineWorkflowDeadline(start, setting, config), Asked(setting, config);
      && d == RunnerTimestamp(start, setting, config)
      && (d.None? <==> asked <= 0)
      && (d.Some? ==> exists limit :: Smaller(limit, asked, config.maxTimeout) && d == Some(start + 1000 * limit))
  {
    var limit := if Asked(setting, config) <= config.maxTimeout then Asked(setting, config) else config.maxTimeout;
    assert Smaller(limit, Asked(setting, config), config.maxTimeout);
  }

  /** Without one, a sub-workflow gets all it asks for, and the runner sets no deadline and no stop. */
  lemma NoMaximum(start: int, startedAt: Option<int>, setting: Option<int>, config: Config)
    requires config.maxTimeout <= 0
    ensures var asked := Asked(setting, config);
      DetermineWorkflowDeadline(start, setting, config) == if asked <= 0 then None else Some(start + 1000 * asked)
    ensures RunnerTimestamp(start, setting, config) == None
    ensures ScheduleStop(start, startedAt, setting, config) == Never
  {
  }

  function StopAt(instant: int, now: int): HardStop {
    if instant <= now then Now else After(instant - now)
  }

  /** With a positive maximum an execution is stopped exactly if a limit is asked for, after that limit or the maximum,
      whichever is smaller, counted from its first start: at once when that has passed. */
  lemma HardStopExactly(now: int, startedAt: Option<int>, setting: Option<int>, config: Config)
    requires config.maxTimeout > 0
    ensures var stop, asked := ScheduleStop(now, startedAt, setting, config), Asked(setting, config);
      var begin := if startedAt.Some? then startedAt.value else now;
      && (stop.Never? <==> asked <= 0)
      && (asked > 0 ==>
            exists limit :: Smaller(limit, asked, config.maxTimeout) && stop == StopAt(begin + 1000 * limit, now))
  {
    var limit := if Asked(setting, config) <= config.maxTimeout then Asked(setting, config) else config.maxTimeout;
    assert Smaller(limit, Asked(setting, config), config.maxTimeout);
  }

  /** The two computations agree exactly when the maximum is positive or no limit is asked for. */
  lemma AgreementExactly(now: int, setting: Option<int>, config: Config)
    ensures DetermineWorkflowDeadline(now, setting, config) == RunnerTimestamp(now, setting, config) <==>
      config.maxTimeout > 0 || (if setting.Some? then setting.value else config.timeout) <= 0
  {
  }

  /** A maximum of zero leaves a sub-workflow its ten seconds, and takes the limit off when the runner starts it. */
  lemma ZeroMaximumDisagrees(now: int)
    ensures DetermineWorkflowDeadline(now, Some(10), Config(-1, 0)) == Some(now + 10000)
    ensures RunnerTimestamp(now, Some(10), Config(-1, 0)) == None
  {
  }

  // ---- Nested sub-workflows ----

  function ResolveSubworkflowDeadline(own: Deadline, parent: Deadline, doNotWaitToFinish: bool): Deadline {
    if doNotWaitToFinish then own
    else if parent.Some? && own.Some? then Some(Min(parent.value, own.value))
    else if parent.Some? then parent
    else own
  }

  /** One level of nesting: when it started, its setting, and whether its caller does not wait for it. */
  datatype Level = Level(startTime: int, setting: Option<int>, detached: bool)

  /** The deadline passed down a chain of calls, outermost first; the outermost is run by the runner. */
  function ChainDeadline(chain: seq<Level>, config: Config): Deadline
    requires chain != []
  {
    var last := chain[|chain| - 1];
    if |chain| == 1 then RunnerTimestamp(last.startTime, last.setting, config)
    else ResolveSubworkflowDeadline(
      DetermineWorkflowDeadline(last.startTime, last.setting, config),
      ChainDeadline(chain[..|chain| - 1], config),
      last.detached)
  }

  /** The deadline level `k` has by its own settings. */
  function OwnDeadline(chain: seq<Level>, k: nat, config: Config): Deadline
    requires k < |chain|
  {
    if k == 0 then RunnerTimestamp(chain[0].startTime, chain[0].setting, config)
    else DetermineWorkflowDeadline(chain[k].startTime, chain[k].setting, config)
  }

  /** Level `k` is awaited, directly and through every level in between, by the last level's callers. */
  ghost predicate Binds(chain: seq<Level>, k: nat) {
    k < |chain| && forall j :: k < j < |chain| ==> !chain[j].detached
  }

  /** `d` is the earliest own deadline among the binding levels: no later than each, and one of them if set. */
  ghost predicate IsEarliest(chain: seq<Level>, config: Config, d: Deadline) {
    && (forall k :: 0 <= k < |chain| && Binds(chain, k) ==> NoLater(d, OwnDeadline(chain, k, config)))
    && (d.Some? ==> exists k :: 0 <= k < |chain| && Binds(chain, k) && OwnDeadline(chain, k, config) == d)
  }

  /** At any depth the deadline is the earliest own deadline back to the nearest detached level. */
  lemma {:induction false} ChainDeadlineIsEarliest(chain: seq<Level>, config: Config)
    requires chain != []
    ensures IsEarliest(chain, config, ChainDeadline(chain, config))
  {
    var n := |chain| - 1;
    var d := ChainDeadline(chain, config);
    assert Binds(chain, n);
    if n > 0 {
      var up := chain[..n];
      var p := ChainDeadline(up, config);
      ChainDeadlineIsEarliest(up, config);
      forall k | 0 <= k < n
        ensures Binds(chain, k) <==> Binds(up, k) && !chain[n].detached
        ensures OwnDeadline(chain, k, config) == OwnDeadline(up, k, config)
      {
        if Binds(up, k) && !chain[n].detached {
          assert forall j :: k < j < n ==> chain[j] == up[j];
        }
        if Binds(chain, k) {
          assert forall j :: k < j < n ==> up[j] == chain[j];
        }
      }
      if d.Some? && d != OwnDeadline(chain, n, config) {
        var k :| 0 <= k < n && Binds(up, k) && OwnDeadline(up, k, config) == p;
        assert Binds(chain, k) && OwnDeadline(chain, k, config) == d;
      }
    }
  }

  /** Only one deadline is the earliest. */
  lemma EarliestIsUnique(chain: seq<Level>, config: Config, d: Deadline, e: Deadline)
    requires IsEarliest(chain, config, d) && IsEarliest(chain, config, e)
    ensures d == e
  {
  }

  /** An awaited descendant never has a later deadline than the ancestor that awaits it. */
  lemma {:induction false} AwaitedIsNoLater(chain: seq<Level>, config: Config, k: nat)
    requires Binds(chain, k)
    ensures NoLater(ChainDeadline(chain, config), ChainDeadline(chain[..k + 1], config))
  {
    var n := |chain| - 1;
    if k == n {
      assert chain[..k + 1] == chain;
    } else {
      assert chain[..n][..k + 1] == chain[..k + 1];
      assert Binds(chain[..n], k);
      AwaitedIsNoLater(chain[..n], config, k);
    }
  }

  // ---- Waiting and resuming ----

  /** What the runner schedules: nothing, an immediate stop, or a timer. */
  datatype HardStop = Never | Now | After(ms: int)

  /** `startedAt` is set when the execution is being resumed. */
  function ScheduleStop(now: int, startedAt: Option<int>, setting: Option<int>, config: Config): HardStop {
    var limit := RunnerLimit(setting, config);
    if limit <= 0 then Never
    else
      var full := Min(limit, config.maxTimeout) * MS_PER_SECOND;
      var ms := if startedAt.Some? then Max(full - (now - startedAt.value), 0) else full;
      if ms == 0 then Now else After(ms)
  }

  /** The instant at which an execution scheduled at `now` is stopped. */
  function StopInstant(now: int, stop: HardStop): Deadline {
    match stop
    case Never => None
    case Now => Some(now)
    case After(ms) => Some(now + ms)
  }

  /** A resume stops the execution at its original limit, or at once when that has passed. */
  lemma ResumeStop(now: int, startedAt: int, setting: Option<int>, config: Config)
    ensures StopInstant(now, ScheduleStop(now, Some(startedAt), setting, config)) ==
      var limit := RunnerLimit(setting, config);
      if limit <= 0 then None else Some(Max(now, startedAt + limit * MS_PER_SECOND))
  {
  }

  /** The database keeps the first start time: marking an execution running sets it only when it is missing. */
  function MarkRunning(startedAt: Option<int>, now: int): Option<int> {
    if startedAt.Some? then startedAt else Some(now)
  }

  /** The stop instants of an execution resumed at each of `times`, its row holding `startedAt`. */
  function ResumeStops(startedAt: Option<int>, times: seq<int>, setting: Option<int>, config: Config): seq<Deadline>
    decreases |times|
  {
    if times == [] then []
    else
      var first := StopInstant(times[0], ScheduleStop(times[0], startedAt, setting, config));
      [first] + ResumeStops(MarkRunning(startedAt, times[0]), times[1..], setting, config)
  }

  /** Through any number of resumes the stop instant stays where the first start put it, and is immediate afterwards. */
  lemma {:induction false} StopSurvivesResumes(start: int, times: seq<int>, setting: Option<int>, config: Config,
                                               k: nat)
    requires k < |times|
    ensures var stops := ResumeStops(Some(start), times, setting, config);
      var limit := RunnerLimit(setting, config);
      && |stops| == |times|
      && (limit <= 0 ==> stops[k] == None)
      && (limit > 0 && times[k] <= start + limit * MS_PER_SECOND ==> stops[k] == Some(start + limit * MS_PER_SECOND))
      && (limit > 0 && times[k] > start + limit * MS_PER_SECOND ==> stops[k] == Some(times[k]))
  {
    if k == 0 {
      StopsLength(Some(start), times, setting, config);
    } else {
      StopSurvivesResumes(start, times[1..], setting, config, k - 1);
    }
  }

  lemma {:induction false} StopsLength(startedAt: Option<int>, times: seq<int>, setting: Option<int>, config: Config)
    ensures |ResumeStops(startedAt, times, setting, config)| == |times|
    decreases |times|
  {
    if times != [] {
      StopsLength(MarkRunning(startedAt, times[0]), times[1..], setting, config);
    }
  }

  /** The soft deadline is counted anew from each resume, so it never comes before the hard stop. */
  lemma HardStopComesFirst(now: int, startedAt: int, setting: Option<int>, config: Config)
    requires startedAt <= now
    ensures var stop := ScheduleStop(now, Some(startedAt), setting, config);
      NoLater(StopInstant(now, stop), RunnerTimestamp(now, setting, config))
  {
  }
}
