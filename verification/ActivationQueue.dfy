/** Retrying failed workflow activations with growing delays, in one process. */
module ActivationQueue {
  import opened Wrappers

  type WorkflowId = string

  const WORKFLOW_REACTIVATE_INITIAL_TIMEOUT: nat := 1000
  const WORKFLOW_REACTIVATE_MAX_TIMEOUT: nat := 24 * 60 * 60 * 1000

  /** `failures` is history: how many attempts since queueing failed other than by an isolate error. */
  datatype Queued = Queued(lastTimeout: nat, timer: nat, failures: nat)

  datatype Mode = AtInit | OnLeadershipChange | OnRequest

  /** What the retry function has captured: the mode, and the workflow's row as it was read when queued. */
  datatype Work = Work(mode: Mode, archived: bool, versioned: bool)

  /** Who queues a workflow: a failed start, a failed trigger, or an isolate error after which the row is read again. */
  datatype Origin = Startup | FailedTrigger(mode: Mode) | Reread(archived: bool, versioned: bool)

  datatype Timer = Timer(id: WorkflowId, delay: nat, live: bool, work: Work)

  datatype Attempt = Attempt(id: WorkflowId, open: bool, work: Work)

  /** `timers` and `attempts` keep every timer ever set and every attempt ever started. */
  datatype State = State(queued: map<WorkflowId, Queued>, timers: seq<Timer>, attempts: seq<Attempt>)

  datatype Action =
    | Queue(id: WorkflowId, origin: Origin)
    | Fire(timer: nat)
    | Fail(attempt: nat, isolate: bool)
    | Succeed(attempt: nat)
    | Skip(attempt: nat)
    | Remove(id: WorkflowId)
    | RemoveAll

  const INIT := State(map[], [], [])

  // ---- The transitions ----

  /** A failed start or trigger had a row that was neither archived nor without an active version;
      requests never carry one of the other modes. */
  function WorkOf(origin: Origin): Work {
    match origin
    case Startup => Work(AtInit, false, true)
    case FailedTrigger(mode) => Work(mode, false, true)
    case Reread(archived, versioned) => Work(OnRequest, archived, versioned)
  }

  /** Activation returns at once, as if it had succeeded. */
  predicate Skips(work: Work) {
    work.archived || (work.mode != OnRequest && !work.versioned)
  }

  function NextTimeout(last: nat, isolate: bool): nat {
    if !isolate && last < WORKFLOW_REACTIVATE_MAX_TIMEOUT then
      if last * 2 <= WORKFLOW_REACTIVATE_MAX_TIMEOUT then last * 2 else WORKFLOW_REACTIVATE_MAX_TIMEOUT
    else last
  }

  function Clear(timers: seq<Timer>, t: nat): seq<Timer> {
    if t < |timers| then timers[t := timers[t].(live := false)] else timers
  }

  /** Clears the timer of the queue entry and drops the entry. */
  function RemoveQueued(s: State, id: WorkflowId): State {
    if id in s.queued then s.(queued := s.queued - {id}, timers := Clear(s.timers, s.queued[id].timer)) else s
  }

  function SetTimer(s: State, id: WorkflowId, delay: nat, failures: nat, work: Work): State {
    s.(queued := s.queued[id := Queued(delay, |s.timers|, failures)],
       timers := s.timers + [Timer(id, delay, true, work)])
  }

  predicate IsOpen(s: State, a: nat) {
    a < |s.attempts| && s.attempts[a].open
  }

  function Close(s: State, a: nat): State
    requires a < |s.attempts|
  {
    s.(attempts := s.attempts[a := s.attempts[a].(open := false)])
  }

  /** Timer `t` is the one of some queue entry outside `todo`. */
  ghost predicate InUse(s: State, t: nat, todo: set<WorkflowId>) {
    exists id :: id in s.queued && id !in todo && s.queued[id].timer == t
  }

  ghost function ClearedTimer(s: State, t: nat, todo: set<WorkflowId>): Timer
    requires t < |s.timers|
  {
    if InUse(s, t, todo) then s.timers[t].(live := false) else s.timers[t]
  }

  ghost function ClearInUse(s: State, n: nat, todo: set<WorkflowId>): (r: seq<Timer>)
    requires n <= |s.timers|
    ensures |r| == n && forall t :: 0 <= t < n ==> r[t] == ClearedTimer(s, t, todo)
  {
    if n == 0 then [] else ClearInUse(s, n - 1, todo) + [ClearedTimer(s, n - 1, todo)]
  }

  /** Every entry removed except those in `todo`. */
  ghost function RemoveBut(s: State, todo: set<WorkflowId>): State {
    s.(queued := map id | id in s.queued && id in todo :: s.queued[id], timers := ClearInUse(s, |s.timers|, todo))
  }

  /** One atomic step; an action that cannot happen in `s` changes nothing. */
  ghost function Next(s: State, a: Action): State {
    match a
    case Queue(id, origin) =>
      SetTimer(RemoveQueued(s, id), id, WORKFLOW_REACTIVATE_INITIAL_TIMEOUT, 0, WorkOf(origin))
    case Fire(t) =>
      if t >= |s.timers| || !s.timers[t].live then s
      else s.(timers := Clear(s.timers, t), attempts := s.attempts + [Attempt(s.timers[t].id, true, s.timers[t].work)])
    case Fail(i, isolate) =>
      if !IsOpen(s, i) || Skips(s.attempts[i].work) then s
      else
        var id, s' := s.attempts[i].id, Close(s, i);
        if id !in s.queued then s'
        else
          var q := s.queued[id];
          SetTimer(s', id, NextTimeout(q.lastTimeout, isolate), q.failures + One(!isolate), s.attempts[i].work)
    case Succeed(i) =>
      if !IsOpen(s, i) || Skips(s.attempts[i].work) || !s.attempts[i].work.versioned then s
      else RemoveQueued(Close(s, i), s.attempts[i].id)
    case Skip(i) => if IsOpen(s, i) && Skips(s.attempts[i].work) then Close(s, i) else s
    case Remove(id) => RemoveQueued(s, id)
    case RemoveAll => RemoveBut(s, {})
  }

  ghost function Run(s: State, run: seq<Action>): State {
    if run == [] then s else Next(Run(s, run[..|run| - 1]), run[|run| - 1])
  }

  // ---- The delay in closed form ----

  /** The delay after `f` failures. */
  function Backoff(f: nat): nat {
    var d := WORKFLOW_REACTIVATE_INITIAL_TIMEOUT * Pow2(f);
    if d <= WORKFLOW_REACTIVATE_MAX_TIMEOUT then d else WORKFLOW_REACTIVATE_MAX_TIMEOUT
  }

  lemma BackoffStep(f: nat, isolate: bool)
    ensures NextTimeout(Backoff(f), isolate) == Backoff(f + One(!isolate))
  {
    assert Pow2(f + 1) == 2 * Pow2(f);
  }

  /** More failures never shorten the delay. */
  lemma {:induction false} BackoffMonotone(f: nat, g: nat)
    requires f <= g
    ensures Backoff(f) <= Backoff(g) <= WORKFLOW_REACTIVATE_MAX_TIMEOUT
  {
    if f < g {
      BackoffMonotone(f, g - 1);
      assert Pow2(g) == 2 * Pow2(g - 1);
    }
  }

  /** Each queue entry holds the closed-form delay, and its timer was set with it. */
  ghost predicate DelaysSound(s: State) {
    forall id :: id in s.queued ==>
      && s.queued[id].lastTimeout == Backoff(s.queued[id].failures)
      && s.queued[id].timer < |s.timers|
      && s.timers[s.queued[id].timer].id == id
      && s.timers[s.queued[id].timer].delay == s.queued[id].lastTimeout
  }

  lemma StepDelays(s: State, a: Action)
    requires DelaysSound(s)
    ensures DelaysSound(Next(s, a))
  {
    match a
    case Queue(id, origin) =>
      assert Backoff(0) == WORKFLOW_REACTIVATE_INITIAL_TIMEOUT;
      RemoveDelays(s, id);
      SetTimerDelays(RemoveQueued(s, id), id, 0, WorkOf(origin));
    case Fail(i, isolate) =>
      if IsOpen(s, i) && s.attempts[i].id in s.queued {
        var q := s.queued[s.attempts[i].id];
        BackoffStep(q.failures, isolate);
        SetTimerDelays(Close(s, i), s.attempts[i].id, q.failures + One(!isolate), s.attempts[i].work);
      }
    case Succeed(i) =>
      if IsOpen(s, i) {
        RemoveDelays(Close(s, i), s.attempts[i].id);
      }
    case Remove(id) => RemoveDelays(s, id);
    case _ =>
  }

  lemma RemoveDelays(s: State, id: WorkflowId)
    requires DelaysSound(s)
    ensures DelaysSound(RemoveQueued(s, id))
  {
  }

  lemma SetTimerDelays(s: State, id: WorkflowId, failures: nat, work: Work)
    requires DelaysSound(s)
    ensures DelaysSound(SetTimer(s, id, Backoff(failures), failures, work))
  {
  }

  /** On every run, whatever is queued, fails, succeeds or is removed. */
  lemma {:induction false} DelayClosedForm(run: seq<Action>)
    ensures DelaysSound(Run(INIT, run))
  {
    if run != [] {
      DelayClosedForm(run[..|run| - 1]);
      StepDelays(Run(INIT, run[..|run| - 1]), run[|run| - 1]);
    }
  }

  // ---- Which failures the delay counts ----

  /** An attempt for the queued workflow `id` fails by something other than an isolate error. */
  predicate FailsFor(s: State, a: Action, id: WorkflowId) {
    && a.Fail? && !a.isolate && id in s.queued
    && IsOpen(s, a.attempt) && s.attempts[a.attempt].id == id && !Skips(s.attempts[a.attempt].work)
  }

  /** How many such failures the run has had since it queued `id` last. */
  ghost function FailuresOf(run: seq<Action>, id: WorkflowId): nat {
    if run == [] then 0
    else
      var front, a := run[..|run| - 1], run[|run| - 1];
      if a.Queue? && a.id == id then 0
      else FailuresOf(front, id) + One(FailsFor(Run(INIT, front), a, id))
  }

  /** The lesser of 1000 * 2^n and the milliseconds of a day. */
  function DelayAfter(n: nat): nat {
    if 1000 * Pow2(n) <= 86400000 then 1000 * Pow2(n) else 86400000
  }

  lemma {:induction false} HistoryCountsFailures(run: seq<Action>, id: WorkflowId)
    requires id in Run(INIT, run).queued
    ensures Run(INIT, run).queued[id].failures == FailuresOf(run, id)
  {
    if run != [] {
      var front, a := run[..|run| - 1], run[|run| - 1];
      if id in Run(INIT, front).queued {
        HistoryCountsFailures(front, id);
      }
      CountStep(Run(INIT, front), a, id);
    }
  }

  /** One step counts such a failure and nothing else; only queueing starts the count. */
  lemma CountStep(s: State, a: Action, id: WorkflowId)
    requires id in Next(s, a).queued
    ensures if a.Queue? && a.id == id then Next(s, a).queued[id].failures == 0
            else id in s.queued && Next(s, a).queued[id].failures == s.queued[id].failures + One(FailsFor(s, a, id))
  {
  }

  /** On every run the delay of a queued workflow, and that of its timer, is min(1000 * 2^n, 86400000), where n counts
      the failures in the run since it was queued last that were not isolate errors. */
  lemma DelayCountsFailures(run: seq<Action>, id: WorkflowId)
    requires id in Run(INIT, run).queued
    ensures var q, delay := Run(INIT, run).queued[id], DelayAfter(FailuresOf(run, id));
      && q.lastTimeout == delay
      && q.timer < |Run(INIT, run).timers| && Run(INIT, run).timers[q.timer].delay == delay
      && Run(INIT, run).timers[q.timer].id == id
  {
    HistoryCountsFailures(run, id);
    DelayClosedForm(run);
  }

  /** An isolate error leaves the delay at a second. */
  lemma IsolateKeepsDelay(id: WorkflowId)
    ensures var s := Run(INIT, [Queue(id, Startup), Fire(0), Fail(0, true)]);
      id in s.queued && s.queued[id].lastTimeout == 1000
  {
    var run := [Queue(id, Startup), Fire(0), Fail(0, true)];
    QueueThenFire(id, Startup);
    RunThree(run[0], run[1], run[2]);
  }

  // ---- Retrying for as long as the workflow is queued ----

  /** The entry's own timer is set, or an attempt is under way. */
  ghost predicate Retrying(s: State, id: WorkflowId) {
    id in s.queued && (LiveAt(s, s.queued[id].timer) || exists i: nat :: IsOpen(s, i) && s.attempts[i].id == id)
  }

  predicate LiveAt(s: State, t: nat) {
    t < |s.timers| && s.timers[t].live
  }

  ghost predicate AllRetrying(s: State) {
    forall id :: id in s.queued ==> Retrying(s, id)
  }

  lemma KeepRetrying(s: State, s': State, id: WorkflowId)
    requires Retrying(s, id) && id in s'.queued && s'.queued[id] == s.queued[id]
    requires LiveAt(s, s.queued[id].timer) ==> LiveAt(s', s.queued[id].timer)
    requires forall i: nat :: IsOpen(s, i) && s.attempts[i].id == id ==> IsOpen(s', i) && s'.attempts[i].id == id
    ensures Retrying(s', id)
  {
  }

  /** An attempt for a workflow still in the queue is skipped. */
  ghost predicate SkipsQueued(s: State, a: Action) {
    && a.Skip? && IsOpen(s, a.attempt) && Skips(s.attempts[a.attempt].work)
    && s.attempts[a.attempt].id in s.queued
  }

  lemma TimerKept(s: State, a: Action, id: WorkflowId)
    requires DelaysSound(s) && id in s.queued && LiveAt(s, s.queued[id].timer)
    requires id in Next(s, a).queued && Next(s, a).queued[id] == s.queued[id]
    requires a.Fire? ==> a.timer != s.queued[id].timer
    ensures LiveAt(Next(s, a), s.queued[id].timer)
  {
  }

  lemma AttemptsKept(s: State, a: Action, id: WorkflowId)
    requires DelaysSound(s) && id in s.queued && id in Next(s, a).queued && Next(s, a).queued[id] == s.queued[id]
    requires !SkipsQueued(s, a)
    ensures forall i: nat :: IsOpen(s, i) && s.attempts[i].id == id ==>
      IsOpen(Next(s, a), i) && Next(s, a).attempts[i].id == id
  {
    if a.Fail? && IsOpen(s, a.attempt) && !Skips(s.attempts[a.attempt].work) && s.attempts[a.attempt].id == id {
      assert Next(s, a).queued[id].timer == |s.timers|;
    }
  }

  /** Any step but a skipped activation leaves a queued workflow with a timer or an attempt. */
  lemma StepRetrying(s: State, a: Action)
    requires DelaysSound(s) && AllRetrying(s) && !SkipsQueued(s, a)
    ensures AllRetrying(Next(s, a))
  {
    var s' := Next(s, a);
    forall id | id in s'.queued
      ensures Retrying(s', id)
    {
      if id in s.queued && s'.queued[id] == s.queued[id] {
        if a.Fire? && a.timer == s.queued[id].timer && LiveAt(s, a.timer) {
          assert IsOpen(s', |s.attempts|) && s'.attempts[|s.attempts|].id == id;
        } else {
          if LiveAt(s, s.queued[id].timer) {
            TimerKept(s, a, id);
          }
          AttemptsKept(s, a, id);
          KeepRetrying(s, s', id);
        }
      } else {
        assert LiveAt(s', s'.queued[id].timer);
      }
    }
  }

  /** A skip of a queued workflow ends its retries, although it stays queued. */
  lemma SkipStalls(s: State, i: nat)
    requires DelaysSound(s) && OneRetry(s) && SkipsQueued(s, Skip(i))
    ensures var s', id := Next(s, Skip(i)), s.attempts[i].id;
      id in s'.queued && !Retrying(s', id) && NoLiveTimer(s', id) && NoOpenAttempt(s', id)
  {
    CloseKeepsOne(s, i);
  }

  /** Every queued workflow is being retried after every prefix of the run. */
  ghost predicate AlwaysRetrying(run: seq<Action>) {
    AllRetrying(Run(INIT, run)) && (run != [] ==> AlwaysRetrying(run[..|run| - 1]))
  }

  ghost predicate NeverSkipsQueued(run: seq<Action>) {
    run != [] ==>
      NeverSkipsQueued(run[..|run| - 1]) && !SkipsQueued(Run(INIT, run[..|run| - 1]), run[|run| - 1])
  }

  /** Without a skip of a queued workflow every queued workflow is retried for ever, on every run. */
  lemma {:induction false} UnskippedKeepTrying(run: seq<Action>)
    requires NeverSkipsQueued(run)
    ensures AlwaysRetrying(run)
  {
    if run != [] {
      var front := run[..|run| - 1];
      UnskippedKeepTrying(front);
      DelayClosedForm(front);
      StepRetrying(Run(INIT, front), run[|run| - 1]);
    }
  }

  /** Queued workflows are retried for ever exactly when none of them is skipped. */
  lemma {:induction false} RetryingExactly(run: seq<Action>)
    requires QuietRun(INIT, run)
    ensures AlwaysRetrying(run) <==> NeverSkipsQueued(run)
  {
    if run != [] {
      var front, a := run[..|run| - 1], run[|run| - 1];
      RetryingExactly(front);
      if SkipsQueued(Run(INIT, front), a) {
        DelayClosedForm(front);
        NeverTwoRetries(front);
        SkipStalls(Run(INIT, front), a.attempt);
      } else if NeverSkipsQueued(front) {
        UnskippedKeepTrying(run);
      }
    }
  }

  // ---- Which workflows are skipped ----

  /** The action queues a workflow whose row, read again, was archived. */
  predicate QueuesArchived(a: Action) {
    a.Queue? && a.origin.Reread? && a.origin.archived
  }

  /** Outside requests the captured row is active and not archived; rows are archived only if `some` says so. */
  predicate WorkSound(work: Work, some: bool) {
    && (work.mode != OnRequest ==> work.versioned && !work.archived)
    && (work.archived ==> some)
  }

  ghost predicate AllWorkSound(s: State, some: bool) {
    && (forall t :: 0 <= t < |s.timers| ==> WorkSound(s.timers[t].work, some))
    && (forall i :: 0 <= i < |s.attempts| ==> WorkSound(s.attempts[i].work, some))
  }

  lemma StepWorkSound(s: State, a: Action, some: bool)
    requires AllWorkSound(s, some) && (QueuesArchived(a) ==> some)
    ensures AllWorkSound(Next(s, a), some)
  {
  }

  lemma {:induction false} RunWorkSound(run: seq<Action>, some: bool)
    requires forall a :: a in run && QueuesArchived(a) ==> some
    ensures AllWorkSound(Run(INIT, run), some)
  {
    if run != [] {
      var front, a := run[..|run| - 1], run[|run| - 1];
      assert a in run && forall x :: x in front ==> x in run;
      RunWorkSound(front, some);
      StepWorkSound(Run(INIT, front), a, some);
    }
  }

  /** A retry skips exactly archived rows; the skip for rows without an active version is never taken by one. */
  lemma OnlyArchivedSkip(run: seq<Action>, i: nat)
    requires i < |Run(INIT, run).attempts|
    ensures Skips(Run(INIT, run).attempts[i].work) <==> Run(INIT, run).attempts[i].work.archived
  {
    RunWorkSound(run, true);
  }

  /** As long as no archived row is queued, every queued workflow is retried for ever. */
  lemma {:induction false} KeepsTrying(run: seq<Action>)
    requires forall a :: a in run ==> !QueuesArchived(a)
    ensures NeverSkipsQueued(run) && AlwaysRetrying(run)
  {
    if run != [] {
      var front := run[..|run| - 1];
      assert forall x :: x in front ==> x in run;
      KeepsTrying(front);
      RunWorkSound(front, false);
    }
    UnskippedKeepTrying(run);
  }

  /** Queueing an archived row stalls after one attempt: the workflow stays queued with neither timer nor attempt. */
  lemma ArchivedStalls(id: WorkflowId, versioned: bool)
    ensures var s := Run(INIT, [Queue(id, Reread(true, versioned)), Fire(0), Skip(0)]);
      id in s.queued && !Retrying(s, id)
  {
    var origin := Reread(true, versioned);
    QueueThenFire(id, origin);
    SkippedOnce(id, origin);
    RunThree(Queue(id, origin), Fire(0), Skip(0));
  }

  lemma SkippedOnce(id: WorkflowId, origin: Origin)
    requires Skips(WorkOf(origin))
    ensures var s := Next(QueuedOnce(id, origin, false), Skip(0)); id in s.queued && !Retrying(s, id)
  {
    var s := QueuedOnce(id, origin, false);
    assert Next(s, Skip(0)) == Close(s, 0);
    assert !LiveAt(s, 0) && Close(s, 0).attempts == [Attempt(id, false, WorkOf(origin))];
  }

  lemma RunThree(a: Action, b: Action, c: Action)
    ensures Run(INIT, [a, b, c]) == Next(Next(Next(INIT, a), b), c)
  {
    assert [a, b, c][..2] == [a, b] && [a, b][..1] == [a] && [a][..0] == [];
    assert Run(INIT, [a]) == Next(INIT, a);
    assert Run(INIT, [a, b]) == Next(Next(INIT, a), b);
  }

  // ---- No two retries at once ----

  /** Nothing is queued again while an attempt for it is under way. */
  ghost predicate Quiet(s: State, a: Action) {
    a.Queue? ==> forall i :: 0 <= i < |s.attempts| && s.attempts[i].id == a.id ==> !s.attempts[i].open
  }

  ghost predicate QuietRun(s: State, run: seq<Action>) {
    run != [] ==> QuietRun(s, run[..|run| - 1]) && Quiet(Run(s, run[..|run| - 1]), run[|run| - 1])
  }

  /** A live timer is its queue entry's; an attempt under way excludes a live timer and any other attempt. */
  ghost predicate OneRetry(s: State) {
    && (forall t :: 0 <= t < |s.timers| && s.timers[t].live ==>
          s.timers[t].id in s.queued && s.queued[s.timers[t].id].timer == t)
    && (forall t, i :: 0 <= t < |s.timers| && 0 <= i < |s.attempts| && s.timers[t].live && s.attempts[i].open ==>
          s.timers[t].id != s.attempts[i].id)
    && (forall i, j :: 0 <= i < j < |s.attempts| && s.attempts[i].open && s.attempts[j].open ==>
          s.attempts[i].id != s.attempts[j].id)
  }

  ghost predicate NoLiveTimer(s: State, id: WorkflowId) {
    forall t :: 0 <= t < |s.timers| && s.timers[t].id == id ==> !s.timers[t].live
  }

  ghost predicate NoOpenAttempt(s: State, id: WorkflowId) {
    forall i :: 0 <= i < |s.attempts| && s.attempts[i].id == id ==> !s.attempts[i].open
  }

  lemma RemoveKeepsOne(s: State, id: WorkflowId)
    requires DelaysSound(s) && OneRetry(s)
    ensures OneRetry(RemoveQueued(s, id)) && NoLiveTimer(RemoveQueued(s, id), id)
  {
  }

  lemma SetTimerKeepsOne(s: State, id: WorkflowId, delay: nat, failures: nat, work: Work)
    requires OneRetry(s) && NoLiveTimer(s, id) && NoOpenAttempt(s, id)
    ensures OneRetry(SetTimer(s, id, delay, failures, work))
  {
  }

  lemma CloseKeepsOne(s: State, i: nat)
    requires OneRetry(s) && IsOpen(s, i)
    ensures var id, s' := s.attempts[i].id, Close(s, i);
      OneRetry(s') && NoLiveTimer(s', id) && NoOpenAttempt(s', id)
  {
  }

  lemma FireKeepsOne(s: State, t: nat)
    requires OneRetry(s) && t < |s.timers| && s.timers[t].live
    ensures OneRetry(Next(s, Fire(t)))
  {
  }

  lemma RemoveAllKeepsOne(s: State)
    requires OneRetry(s)
    ensures OneRetry(RemoveBut(s, {}))
  {
    forall t | 0 <= t < |s.timers| && s.timers[t].live
      ensures InUse(s, t, {})
    {
      assert s.timers[t].id in s.queued;
    }
  }

  lemma StepOneRetry(s: State, a: Action)
    requires DelaysSound(s) && OneRetry(s) && Quiet(s, a)
    ensures OneRetry(Next(s, a))
  {
    match a
    case Queue(id, origin) =>
      RemoveKeepsOne(s, id);
      SetTimerKeepsOne(RemoveQueued(s, id), id, WORKFLOW_REACTIVATE_INITIAL_TIMEOUT, 0, WorkOf(origin));
    case Fire(t) =>
      if t < |s.timers| && s.timers[t].live {
        FireKeepsOne(s, t);
      }
    case Fail(i, isolate) =>
      if IsOpen(s, i) {
        CloseKeepsOne(s, i);
        var id := s.attempts[i].id;
        if id in s.queued {
          var q := s.queued[id];
          var work := s.attempts[i].work;
          SetTimerKeepsOne(Close(s, i), id, NextTimeout(q.lastTimeout, isolate), q.failures + One(!isolate), work);
        }
      }
    case Succeed(i) =>
      if IsOpen(s, i) {
        CloseKeepsOne(s, i);
        RemoveKeepsOne(Close(s, i), s.attempts[i].id);
      }
    case Skip(i) =>
      if IsOpen(s, i) {
        CloseKeepsOne(s, i);
      }
    case Remove(id) => RemoveKeepsOne(s, id);
    case RemoveAll => RemoveAllKeepsOne(s);
  }

  lemma {:induction false} NeverTwoRetries(run: seq<Action>)
    requires QuietRun(INIT, run)
    ensures OneRetry(Run(INIT, run))
  {
    if run != [] {
      NeverTwoRetries(run[..|run| - 1]);
      DelayClosedForm(run[..|run| - 1]);
      StepOneRetry(Run(INIT, run[..|run| - 1]), run[|run| - 1]);
    }
  }

  /** Queueing during an attempt breaks the invariant at once; no other step ever does. */
  lemma StepOneExactly(s: State, a: Action)
    requires DelaysSound(s) && OneRetry(s)
    ensures OneRetry(Next(s, a)) <==> Quiet(s, a)
  {
    if Quiet(s, a) {
      StepOneRetry(s, a);
    } else {
      var i :| 0 <= i < |s.attempts| && s.attempts[i].id == a.id && s.attempts[i].open;
      var s' := Next(s, a);
      var t := |s'.timers| - 1;
      assert s'.timers[t].live && s'.timers[t].id == s'.attempts[i].id && s'.attempts[i].open;
    }
  }

  /** One retry at most after every prefix of the run. */
  ghost predicate AlwaysOne(run: seq<Action>) {
    OneRetry(Run(INIT, run)) && (run != [] ==> AlwaysOne(run[..|run| - 1]))
  }

  /** No workflow is ever retried twice at once exactly when none is queued during an attempt for it. */
  lemma {:induction false} OneRetryExactly(run: seq<Action>)
    ensures AlwaysOne(run) <==> QuietRun(INIT, run)
  {
    if run != [] {
      var front := run[..|run| - 1];
      OneRetryExactly(front);
      DelayClosedForm(front);
      if AlwaysOne(front) {
        StepOneExactly(Run(INIT, front), run[|run| - 1]);
      }
    }
  }

  /** No queue entry and no live timer for `id`. */
  ghost predicate Gone(s: State, id: WorkflowId) {
    id !in s.queued && forall t :: 0 <= t < |s.timers| && s.timers[t].id == id ==> !s.timers[t].live
  }

  ghost function AttemptsFor(s: State, id: WorkflowId): nat {
    Count(s.attempts, (a: Attempt) => a.id == id)
  }

  lemma StepGone(s: State, a: Action, id: WorkflowId)
    requires Gone(s, id) && !(a.Queue? && a.id == id)
    ensures Gone(Next(s, a), id) && AttemptsFor(Next(s, a), id) == AttemptsFor(s, id)
  {
    var mine := (x: Attempt) => x.id == id;
    if a.Fire? && a.timer < |s.timers| && s.timers[a.timer].live {
      CountAppend(s.attempts, Attempt(s.timers[a.timer].id, true, s.timers[a.timer].work), mine);
    } else if (a.Fail? || a.Succeed? || a.Skip?) && IsOpen(s, a.attempt) {
      CountUpdate(s.attempts, a.attempt, s.attempts[a.attempt].(open := false), mine);
    }
  }

  /** After a removal on a quiet run no attempt starts until the workflow is queued again;
      what may still run is the single attempt already under way. */
  lemma {:induction false} RemovalIsFinal(before: seq<Action>, id: WorkflowId, after: seq<Action>)
    requires QuietRun(INIT, before)
    requires forall a :: a in after ==> !(a.Queue? && a.id == id)
    ensures var s := Next(Run(INIT, before), Remove(id));
      Gone(Run(s, after), id) && AttemptsFor(Run(s, after), id) == AttemptsFor(s, id)
  {
    var s := Next(Run(INIT, before), Remove(id));
    if after == [] {
      NeverTwoRetries(before);
      DelayClosedForm(before);
    } else {
      var front := after[..|after| - 1];
      assert after[|after| - 1] in after && forall a :: a in front ==> a in after;
      RemovalIsFinal(before, id, front);
      StepGone(Run(s, front), after[|after| - 1], id);
    }
  }

  /** A workflow queued once, its first timer set or fired. */
  function QueuedOnce(id: WorkflowId, origin: Origin, live: bool): State {
    var d, work := WORKFLOW_REACTIVATE_INITIAL_TIMEOUT, WorkOf(origin);
    State(map[id := Queued(d, 0, 0)], [Timer(id, d, live, work)], if live then [] else [Attempt(id, true, work)])
  }

  /** Queued again before its attempt ends. */
  function Requeued(id: WorkflowId): State {
    var d, work := WORKFLOW_REACTIVATE_INITIAL_TIMEOUT, WorkOf(Startup);
    State(map[id := Queued(d, 1, 0)], [Timer(id, d, false, work), Timer(id, d, true, work)], [Attempt(id, true, work)])
  }

  lemma QueueThenFire(id: WorkflowId, origin: Origin)
    ensures Next(INIT, Queue(id, origin)) == QueuedOnce(id, origin, true)
    ensures Next(QueuedOnce(id, origin, true), Fire(0)) == QueuedOnce(id, origin, false)
  {
  }

  lemma QueueAgain(id: WorkflowId)
    ensures Next(QueuedOnce(id, Startup, false), Queue(id, Startup)) == Requeued(id)
  {
    var once := QueuedOnce(id, Startup, false);
    assert RemoveQueued(once, id) == once.(queued := map[]);
  }

  lemma RequeuedReached(id: WorkflowId) returns (run: seq<Action>)
    ensures Run(INIT, run) == Requeued(id)
  {
    var queue := Queue(id, Startup);
    QueueThenFire(id, Startup);
    QueueAgain(id);
    RunThree(queue, Fire(0), queue);
    run := [queue, Fire(0), queue];
  }

  /** Queueing again during an attempt leaves a second live timer that removal does not reach. */
  lemma RequeueInFlight(id: WorkflowId)
    ensures exists run, t: nat :: var s := Run(INIT, run);
      && id !in s.queued && LiveAt(s, t)
      && s.timers[t].id == id && s.timers[t].delay == WORKFLOW_REACTIVATE_INITIAL_TIMEOUT
  {
    var run := RequeuedReached(id);
    var s := Then(run, Requeued(id), Fail(0, true));
    assert s.timers == Requeued(id).timers + [Timer(id, WORKFLOW_REACTIVATE_INITIAL_TIMEOUT, true, WorkOf(Startup))];
    assert s.queued[id].timer == 2;
    var removed := Then(run + [Fail(0, true)], s, Remove(id));
    assert LiveAt(removed, 1) && removed.timers[1].id == id && id !in removed.queued;
    assert Run(INIT, run + [Fail(0, true)] + [Remove(id)]) == removed;
  }

  lemma Then(run: seq<Action>, before: State, a: Action) returns (after: State)
    requires before == Run(INIT, run)
    ensures after == Next(before, a) == Run(INIT, run + [a])
  {
    after := Next(before, a);
    assert (run + [a])[..|run + [a]| - 1] == run;
  }

  /** Removing all leaves nothing queued and no former entry's timer running, and touches no other timer. */
  lemma AllAreRemoved(s: State)
    ensures var s' := Next(s, RemoveAll);
      && s'.queued == map[] && s'.attempts == s.attempts && |s'.timers| == |s.timers|
      && (forall id :: id in s.queued ==> !LiveAt(s', s.queued[id].timer))
      && (forall t :: 0 <= t < |s.timers| && (forall id :: id in s.queued ==> s.queued[id].timer != t) ==>
            s'.timers[t] == s.timers[t])
  {
    forall id | id in s.queued
      ensures !LiveAt(Next(s, RemoveAll), s.queued[id].timer)
    {
      assert InUse(s, s.queued[id].timer, {});
    }
  }

  /** On runs without queueing during an attempt no timer at all is left. */
  lemma {:induction false} NothingFiresAfterRemoveAll(run: seq<Action>, t: nat)
    requires QuietRun(INIT, run)
    ensures !LiveAt(Next(Run(INIT, run), RemoveAll), t)
  {
    NeverTwoRetries(run);
    AllAreRemoved(Run(INIT, run));
    RemoveAllKeepsOne(Run(INIT, run));
  }

  // ---- The manager ----

  /** How an attempt ends: a workflow without an active version fails, though not by an isolate error. */
  function EndOf(work: Work, a: nat, activates: bool, isolate: bool): Action {
    if Skips(work) then Skip(a)
    else if work.versioned && activates then Succeed(a)
    else Fail(a, work.versioned && isolate)
  }

  class ActiveWorkflowManager {
    var queuedActivations: map<WorkflowId, Queued>
    var timers: seq<Timer>
    var attempts: seq<Attempt>

    ghost function View(): State
      reads this
    {
      State(queuedActivations, timers, attempts)
    }

    constructor ()
      ensures View() == INIT
    {
      queuedActivations, timers, attempts := map[], [], [];
    }

    method RemoveQueuedWorkflowActivation(id: WorkflowId)
      modifies this`queuedActivations, this`timers
      ensures View() == Next(old(View()), Remove(id))
    {
      if id in queuedActivations {
        timers := Clear(timers, queuedActivations[id].timer);
        queuedActivations := queuedActivations - {id};
      }
    }

    method AddQueuedWorkflowActivation(id: WorkflowId, origin: Origin)
      modifies this`queuedActivations, this`timers
      ensures View() == Next(old(View()), Queue(id, origin))
    {
      RemoveQueuedWorkflowActivation(id);
      queuedActivations := queuedActivations[id := Queued(WORKFLOW_REACTIVATE_INITIAL_TIMEOUT, |timers|, 0)];
      timers := timers + [Timer(id, WORKFLOW_REACTIVATE_INITIAL_TIMEOUT, true, WorkOf(origin))];
    }

    /** The timer fires and the retry function begins. */
    method BeginRetry(t: nat)
      requires t < |timers| && timers[t].live
      modifies this`timers, this`attempts
      ensures View() == Next(old(View()), Fire(t))
    {
      attempts := attempts + [Attempt(timers[t].id, true, timers[t].work)];
      timers := Clear(timers, t);
    }

    /** The rest of the retry function, when everything after the skips succeeds or fails. */
    method EndRetry(a: nat, activates: bool, isolate: bool)
      requires IsOpen(View(), a)
      modifies this
      ensures View() == Next(old(View()), EndOf(old(attempts[a].work), a, activates, isolate))
    {
      var id, work := attempts[a].id, attempts[a].work;
      attempts := attempts[a := attempts[a].(open := false)];
      if work.archived || (work.mode != OnRequest && !work.versioned) {
        return;
      }
      if work.versioned && activates {
        RemoveQueuedWorkflowActivation(id);
        return;
      }
      if id !in queuedActivations {
        return;
      }
      var queued := queuedActivations[id];
      var lastTimeout := queued.lastTimeout;
      var failures := queued.failures;
      if !(work.versioned && isolate) {
        failures := failures + 1;
        if lastTimeout < WORKFLOW_REACTIVATE_MAX_TIMEOUT {
          var double := lastTimeout * 2;
          lastTimeout := if double <= WORKFLOW_REACTIVATE_MAX_TIMEOUT then double else WORKFLOW_REACTIVATE_MAX_TIMEOUT;
        }
      }
      queuedActivations := queuedActivations[id := Queued(lastTimeout, |timers|, failures)];
      timers := timers + [Timer(id, lastTimeout, true, work)];
    }

    method RemoveAllQueuedWorkflowActivations()
      requires DelaysSound(View())
      modifies this`queuedActivations, this`timers
      ensures View() == Next(old(View()), RemoveAll)
    {
      ghost var was := View();
      var workflowIds := queuedActivations.Keys;
      RemoveNothing(was);
      while workflowIds != {}
        invariant workflowIds <= was.queued.Keys && View() == RemoveBut(was, workflowIds)
      {
        var id :| id in workflowIds;
        RemoveOneMore(was, workflowIds, id);
        RemoveQueuedWorkflowActivation(id);
        workflowIds := workflowIds - {id};
      }
    }
  }

  lemma RemoveNothing(s: State)
    ensures RemoveBut(s, s.queued.Keys) == s
  {
    assert RemoveBut(s, s.queued.Keys).queued == s.queued;
    assert RemoveBut(s, s.queued.Keys).timers == s.timers;
  }

  lemma RemoveOneMore(s: State, todo: set<WorkflowId>, id: WorkflowId)
    requires DelaysSound(s) && id in todo && todo <= s.queued.Keys
    ensures RemoveQueued(RemoveBut(s, todo), id) == RemoveBut(s, todo - {id})
  {
    var before, after := RemoveBut(s, todo), RemoveBut(s, todo - {id});
    assert before.queued - {id} == after.queued;
    forall t | 0 <= t < |s.timers|
      ensures InUse(s, t, todo - {id}) <==> InUse(s, t, todo) || t == s.queued[id].timer
    {
    }
    assert Clear(before.timers, s.queued[id].timer) == after.timers;
  }
}
