/** The wait tracker of one process, its retry loop, and the resuming of a parent by a finished child. */
module WaitTracker {
  import opened Wrappers
  import opened Executions
  import opened ResumeProtocol
  import opened TimerTracking

  /** A row the poll returned: the execution and when its wait ends; `epoch` is history, which wait that is. */
  datatype Found = Found(id: ExecutionId, epoch: nat, waitTill: int)

  class WaitTracker {
    const process: ProcessId
    var waitingExecutions: map<ExecutionId, nat>
    var timers: seq<Timer>
    var tracking: bool

    constructor (process: ProcessId)
      ensures this.process == process && waitingExecutions == map[] && timers == [] && !tracking
    {
      this.process := process;
      waitingExecutions, timers, tracking := map[], [], false;
    }

    /** The tracker is in the state the protocol ascribes to its process. */
    ghost predicate Matches(w: World)
      reads this
    {
      && timers == w.timers
      && (forall id :: id in waitingExecutions <==> (process, id) in w.tracked)
      && (forall id :: id in waitingExecutions ==> waitingExecutions[id] == w.tracked[(process, id)] < |timers|)
    }

    /** Takes over the tracking with a first poll at `asked`; the later ones come every minute. */
    method StartTracking(executions: seq<Found>, asked: int, clock: nat -> int, ghost w: World)
      requires Matches(w) && AllPolled(w, executions, asked)
      modifies this
      ensures tracking && Matches(TrackAll(w, process, executions, asked, clock))
    {
      tracking := true;
      GetWaitingExecutions(executions, asked, clock, w);
    }

    /** A poll asked at `asked` found `executions`; `clock` tells the time at each of them.
        Sets a timer for each that has none. */
    method GetWaitingExecutions(executions: seq<Found>, asked: int, clock: nat -> int, ghost w: World)
      requires Matches(w) && AllPolled(w, executions, asked)
      modifies this`waitingExecutions, this`timers
      ensures Matches(TrackAll(w, process, executions, asked, clock))
    {
      for i := 0 to |executions|
        invariant Matches(TrackAll(w, process, executions[..i], asked, clock))
      {
        TrackRound(w, process, executions, asked, clock, i);
        TrackOne(executions[i], asked, clock(i), TrackAll(w, process, executions[..i], asked, clock));
      }
      assert executions[..|executions|] == executions;
    }

    /** One round of the poll's loop. */
    method TrackOne(execution: Found, asked: int, now: int, ghost w: World)
      requires Matches(w) && FoundIn(w, execution, asked)
      modifies this`waitingExecutions, this`timers
      ensures Matches(Next(w, Track(process, execution.id, execution.epoch, asked, now)))
    {
      if execution.id !in waitingExecutions {
        var triggerTime := execution.waitTill - now;
        waitingExecutions := waitingExecutions[execution.id := |timers|];
        timers := timers + [Timer(process, execution.id, execution.epoch, triggerTime, true)];
      }
    }

    method StopExecution(executionId: ExecutionId, ghost w: World)
      requires Matches(w)
      modifies this`waitingExecutions, this`timers
      ensures Matches(Next(w, Untrack(process, executionId)))
    {
      if executionId !in waitingExecutions {
        return;
      }
      timers := ClearTimer(timers, waitingExecutions[executionId]);
      waitingExecutions := waitingExecutions - {executionId};
    }

    /** The synchronous start of resuming: the entry goes, its timer stays. */
    method BeginStartExecution(executionId: ExecutionId, ghost w: World)
      requires Matches(w)
      modifies this`waitingExecutions
      ensures Matches(Next(w, ChildDone(process, executionId)))
    {
      waitingExecutions := waitingExecutions - {executionId};
    }

    /** Switches the tracked timers off and keeps their entries; does nothing when tracking never started. */
    method EndTracking(ghost w: World)
      requires Matches(w)
      modifies this`timers
      ensures Matches(if tracking then Next(w, StopTracking(process)) else w)
    {
      if !tracking {
        return;
      }
      ghost var was := timers;
      var ids := waitingExecutions.Keys;
      while ids != {}
        invariant ids <= waitingExecutions.Keys
        invariant |timers| == |was|
        invariant forall t :: 0 <= t < |timers| ==> timers[t] == was[t] || timers[t] == was[t].(live := false)
        invariant forall t :: 0 <= t < |timers| ==>
          (timers[t] == was[t].(live := false) <==> !was[t].live || Reached(waitingExecutions, ids, t))
      {
        var id :| id in ids;
        timers := ClearTimer(timers, waitingExecutions[id]);
        ids := ids - {id};
      }
      assert timers == Next(w, StopTracking(process)).timers;
    }
  }

  /** Timer `t` belongs to an entry outside `todo`. */
  ghost predicate Reached(entries: map<ExecutionId, nat>, todo: set<ExecutionId>, t: nat) {
    exists id :: id in entries && id !in todo && entries[id] == t
  }

  /** The poll may return the row as it is. */
  predicate FoundIn(w: World, x: Found, asked: int) {
    Polled(w, x.id, x.epoch, asked) && x.waitTill == w.rows[x.id].waits[x.epoch - 1]
  }

  ghost predicate AllPolled(w: World, executions: seq<Found>, asked: int) {
    forall x :: x in executions ==> FoundIn(w, x, asked)
  }

  /** The executions are tracked in turn, the `i`-th with the time its wait still takes at `clock(i)`. */
  ghost function TrackAll(w: World, process: ProcessId, executions: seq<Found>, asked: int, clock: nat -> int): World {
    if executions == [] then w
    else
      var last := |executions| - 1;
      Next(TrackAll(w, process, executions[..last], asked, clock),
           Track(process, executions[last].id, executions[last].epoch, asked, clock(last)))
  }

  lemma TrackRound(w: World, process: ProcessId, executions: seq<Found>, asked: int, clock: nat -> int, i: nat)
    requires i < |executions| && AllPolled(w, executions, asked)
    ensures var before, x := TrackAll(w, process, executions[..i], asked, clock), executions[i];
      && FoundIn(before, x, asked)
      && TrackAll(w, process, executions[..i + 1], asked, clock)
         == Next(before, Track(process, x.id, x.epoch, asked, clock(i)))
  {
    assert executions[..i + 1][..i] == executions[..i] && executions[i] in executions;
    OthersUntracked(w, process, executions[..i], asked, clock, executions[i].id);
  }

  /** `w'` has the rows and timers of `w` and possibly more timers. */
  ghost predicate MoreTimers(w: World, w': World) {
    w'.rows == w.rows && |w.timers| <= |w'.timers| && forall t :: 0 <= t < |w.timers| ==> w'.timers[t] == w.timers[t]
  }

  /** The entry `k` is the same in both, or absent from both. */
  ghost predicate SameEntry(w: World, w': World, k: (ProcessId, ExecutionId)) {
    (k in w'.tracked <==> k in w.tracked) && (k in w.tracked ==> w'.tracked[k] == w.tracked[k])
  }

  predicate TimerFor(timer: Timer, k: (ProcessId, ExecutionId), delay: int) {
    timer.process == k.0 && timer.id == k.1 && timer.delay == delay && timer.live
  }

  /** The entry `k` is the old one, or new with a timer of that delay. */
  ghost predicate HasEntry(w: World, w': World, k: (ProcessId, ExecutionId), delay: int) {
    && k in w'.tracked
    && (k in w.tracked ==> w'.tracked[k] == w.tracked[k])
    && (k !in w.tracked ==>
          |w.timers| <= w'.tracked[k] < |w'.timers| && TimerFor(w'.timers[w'.tracked[k]], k, delay))
  }

  lemma TrackEffect(w: World, process: ProcessId, x: Found, asked: int, now: int)
    ensures var w' := Next(w, Track(process, x.id, x.epoch, asked, now));
      && MoreTimers(w, w')
      && (forall k :: k != (process, x.id) || k in w.tracked ==> SameEntry(w, w', k))
      && (FoundIn(w, x, asked) ==> HasEntry(w, w', (process, x.id), x.waitTill - now))
  {
  }

  /** After a poll every execution it found has an entry; where there was none, its timer runs until the wait ends. */
  lemma {:induction false} PollTracks(w: World, process: ProcessId, executions: seq<Found>, asked: int,
                                      clock: nat -> int, i: nat)
    requires i < |executions| && AllPolled(w, executions, asked)
    requires forall j :: 0 <= j < |executions| && executions[j].id == executions[i].id ==> j == i
    ensures HasEntry(w, TrackAll(w, process, executions, asked, clock), (process, executions[i].id),
                     executions[i].waitTill - clock(i))
  {
    var last := |executions| - 1;
    var front := executions[..last];
    var w1, w2 := TrackAll(w, process, front, asked, clock), TrackAll(w, process, executions, asked, clock);
    var k, delay := (process, executions[i].id), executions[i].waitTill - clock(i);
    LastTracked(w, process, executions, asked, clock, k);
    if i < last {
      FrontOf(w, executions, asked, i);
      PollTracks(w, process, front, asked, clock, i);
      EntryStays(w, w1, w2, k, delay);
    } else {
      assert forall j :: 0 <= j < last ==> front[j] == executions[j];
      OthersUntracked(w, process, front, asked, clock, k.1);
      EntryComes(w, w1, w2, k, delay);
    }
  }

  /** What the last execution found changes of the entry `k`. */
  lemma LastTracked(w: World, process: ProcessId, executions: seq<Found>, asked: int, clock: nat -> int,
                    k: (ProcessId, ExecutionId))
    requires executions != [] && AllPolled(w, executions, asked)
    ensures var last := |executions| - 1;
      var w1 := TrackAll(w, process, executions[..last], asked, clock);
      var w2 := TrackAll(w, process, executions, asked, clock);
      && MoreTimers(w1, w2)
      && (k != (process, executions[last].id) ==> SameEntry(w1, w2, k))
      && (k == (process, executions[last].id) ==> HasEntry(w1, w2, k, executions[last].waitTill - clock(last)))
  {
    var last := |executions| - 1;
    TrackRound(w, process, executions, asked, clock, last);
    assert executions[..last + 1] == executions;
    TrackEffect(TrackAll(w, process, executions[..last], asked, clock), process, executions[last], asked, clock(last));
  }

  lemma FrontOf(w: World, executions: seq<Found>, asked: int, i: nat)
    requires i < |executions| - 1 && AllPolled(w, executions, asked)
    requires forall j :: 0 <= j < |executions| && executions[j].id == executions[i].id ==> j == i
    ensures var front := executions[..|executions| - 1];
      && front[i] == executions[i] && executions[|executions| - 1].id != executions[i].id
      && AllPolled(w, front, asked)
      && (forall j :: 0 <= j < |front| && front[j].id == front[i].id ==> j == i)
  {
    var front := executions[..|executions| - 1];
    assert forall j :: 0 <= j < |front| ==> front[j] == executions[j];
    assert forall x :: x in front ==> x in executions;
  }

  lemma EntryStays(w: World, w1: World, w2: World, k: (ProcessId, ExecutionId), delay: int)
    requires HasEntry(w, w1, k, delay) && SameEntry(w1, w2, k) && MoreTimers(w1, w2)
    ensures HasEntry(w, w2, k, delay)
  {
  }

  lemma EntryComes(w: World, w1: World, w2: World, k: (ProcessId, ExecutionId), delay: int)
    requires SameEntry(w, w1, k) && MoreTimers(w, w1) && HasEntry(w1, w2, k, delay)
    ensures HasEntry(w, w2, k, delay)
  {
  }

  lemma {:induction false} OthersUntracked(w: World, process: ProcessId, executions: seq<Found>, asked: int,
                                           clock: nat -> int, id: ExecutionId)
    ensures var w', k := TrackAll(w, process, executions, asked, clock), (process, id);
      && MoreTimers(w, w')
      && ((forall x :: x in executions ==> x.id != id) || k in w.tracked ==> SameEntry(w, w', k))
  {
    if executions != [] {
      var last := |executions| - 1;
      var front, x := executions[..last], executions[last];
      assert x in executions && forall y :: y in front ==> y in executions;
      OthersUntracked(w, process, front, asked, clock, id);
      TrackEffect(TrackAll(w, process, front, asked, clock), process, x, asked, clock(last));
    }
  }

  /** After tracking stops no tracked timer is live, yet every entry remains. */
  lemma StoppedTimersAreOff(w: World, process: ProcessId, id: ExecutionId)
    requires (process, id) in w.tracked && w.tracked[(process, id)] < |w.timers|
    ensures var w' := Next(w, StopTracking(process));
      w'.tracked == w.tracked && !w'.timers[w'.tracked[(process, id)]].live
  {
    assert (process, id) in w.tracked.Keys;
  }

  /** Stopping the tracking keeps every entry but not its timer, so no later poll sets one:
      the execution is not resumed by this process as long as the entry stays. */
  lemma StoppedStaysUntimed(w: World, process: ProcessId, id: ExecutionId, polls: seq<Action>)
    requires (process, id) in w.tracked && w.tracked[(process, id)] < |w.timers| && OneTimer(w)
    requires EntriesLive(w)
    requires forall a :: a in polls ==> a.Track? && a.process == process
    ensures var w' := Run(Next(w, StopTracking(process)), polls);
      (process, id) in w'.tracked && forall t: nat :: !LiveTimer(w', t, process, id)
  {
    var w1 := Next(w, StopTracking(process));
    NoneLiveAfterStop(w, process, id);
    KeptEntryBlocksPolls(w1, process, id, polls);
    NoneLiveAfterPolls(w1, Run(w1, polls), process, id);
  }

  lemma NoneLiveAfterStop(w: World, process: ProcessId, id: ExecutionId)
    requires (process, id) in w.tracked && OneTimer(w) && EntriesLive(w)
    ensures forall t: nat :: !LiveTimer(Next(w, StopTracking(process)), t, process, id)
  {
    var k := (process, id);
    assert LiveTimer(w, w.tracked[k], process, id);
    StoppedTimersAreOff(w, process, id);
    forall t: nat
      ensures !LiveTimer(Next(w, StopTracking(process)), t, process, id)
    {
      assert LiveTimer(w, t, process, id) ==> t == w.tracked[k];
    }
  }

  lemma NoneLiveAfterPolls(w: World, w': World, process: ProcessId, id: ExecutionId)
    requires |w.timers| <= |w'.timers| && w'.timers[..|w.timers|] == w.timers
    requires forall t :: |w.timers| <= t < |w'.timers| ==> w'.timers[t].id != id
    requires forall t: nat :: !LiveTimer(w, t, process, id)
    ensures forall t: nat :: !LiveTimer(w', t, process, id)
  {
    forall t: nat
      ensures !LiveTimer(w', t, process, id)
    {
      if t < |w.timers| {
        assert w'.timers[..|w.timers|][t] == w'.timers[t];
        assert !LiveTimer(w, t, process, id);
      }
    }
  }

  // ---- Retrying ----

  datatype Result = Done | Failure(retryable: bool)

  /** The loop ends with call `k`: a success, an error not worth retrying, or the last attempt allowed. */
  ghost predicate Stops(outcome: nat -> Result, maxAttempts: int, k: nat) {
    outcome(k) != Failure(true) || k >= maxAttempts
  }

  /** Calls `outcome` for attempts 1, 2, ... with doubling sleeps in between. */
  method WithRetry(outcome: nat -> Result, maxAttempts: int) returns (r: Result, calls: nat, slept: nat)
    ensures calls >= 1 && Stops(outcome, maxAttempts, calls)
    ensures forall k :: 1 <= k < calls ==> !Stops(outcome, maxAttempts, k)
    ensures r == outcome(calls)
    ensures slept == 100 * (Pow2(calls - 1) - 1)
  {
    calls := 1;
    slept := 0;
    while true
      invariant calls >= 1
      invariant forall k :: 1 <= k < calls ==> !Stops(outcome, maxAttempts, k)
      invariant slept == 100 * (Pow2(calls - 1) - 1)
      decreases maxAttempts - calls
    {
      r := outcome(calls);
      if r == Done {
        return;
      }
      if calls >= maxAttempts || !r.retryable {
        return;
      }
      slept := slept + 100 * Pow2(calls - 1);
      calls := calls + 1;
    }
  }

  /** What awaiting the child's promise gives. */
  datatype ChildEnd = NoResult | Threw | Ended(status: Status)

  /** A finished child first updates its parent, then resumes it; errors are logged, never thrown. */
  method ResumeParentExecution(child: ChildEnd, update: nat -> Result, start: nat -> Result)
    returns (updates: nat, starts: nat, failed: bool)
    ensures updates > 0 <==> child.Ended? && child.status != Waiting
    ensures starts > 0 <==> updates > 0 && update(updates) == Done
    ensures updates <= MAX_PARENT_RESUME_ATTEMPTS && starts <= MAX_PARENT_RESUME_ATTEMPTS
    ensures forall k :: 1 <= k < updates ==> update(k) == Failure(true)
    ensures forall k :: 1 <= k < starts ==> start(k) == Failure(true)
    ensures failed <==> child.Threw? || (updates > 0 && !(starts > 0 && start(starts) == Done))
    ensures failed && updates > 0 && starts == 0 ==>
      update(updates) == Failure(false) || updates == MAX_PARENT_RESUME_ATTEMPTS
    ensures failed && starts > 0 ==> start(starts) == Failure(false) || starts == MAX_PARENT_RESUME_ATTEMPTS
  {
    updates, starts, failed := 0, 0, child.Threw?;
    if !child.Ended? || child.status == Waiting {
      return;
    }
    var r, slept;
    r, updates, slept := WithRetry(update, MAX_PARENT_RESUME_ATTEMPTS);
    OnlyRetryableBefore(update, MAX_PARENT_RESUME_ATTEMPTS, updates);
    if r != Done {
      failed := true;
      return;
    }
    r, starts, slept := WithRetry(start, MAX_PARENT_RESUME_ATTEMPTS);
    OnlyRetryableBefore(start, MAX_PARENT_RESUME_ATTEMPTS, starts);
    failed := r != Done;
  }

  /** Before the call that ends the loop all calls failed retryably, and that call is within the limit. */
  lemma OnlyRetryableBefore(outcome: nat -> Result, maxAttempts: nat, calls: nat)
    requires calls >= 1 && maxAttempts >= 1 && Stops(outcome, maxAttempts, calls)
    requires forall k :: 1 <= k < calls ==> !Stops(outcome, maxAttempts, k)
    ensures calls <= maxAttempts
    ensures forall k :: 1 <= k < calls ==> outcome(k) == Failure(true)
    ensures outcome(calls) == Failure(true) ==> calls == maxAttempts
  {
    assert Stops(outcome, maxAttempts, maxAttempts);
    forall k | 1 <= k < calls
      ensures outcome(k) == Failure(true)
    {
      assert !Stops(outcome, maxAttempts, k);
    }
  }
}
