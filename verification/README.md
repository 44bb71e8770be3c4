# Executions, credentials and retry queues of n8n, modelled in Dafny

The project models the stateful cores of the n8n server and proves what they guarantee on every run or every input.

- `ActiveExecutions.dfy`: the executions of one process. A call of `add` is split at every `await`; entries, concurrency
  slots, the waiting queue, the settled promise with its removal callback, stopping, finalising and shutdown are one
  state machine (`Next`, `Run`) and one class whose methods take exactly its steps.
- `ResumeProtocol.dfy`: the database rows and all processes together. Timers (stale ones too), finished children,
  retries, crashes and cancellations race for waiting executions; the conditional update on status `waiting` decides.
- `TimerTracking.dfy`: the timers of all processes: how many there are for an execution, for which wait each was set,
  and whose entry it belongs to.
- `WaitTracker.dfy`: the tracker of one process, whose state is tied to the protocol's, and the retry loop.
- `CredentialTypes.dfy`, `CredentialOverwrites.dfy`: the loop over a growing array that lists all parents of a
  credential type, the partly merged cache of overwrites, the lookup over it and filling user data.
- `Deadlines.dfy`: time limits of executions, of nested sub-workflows and across waiting.
- `ParentUpdate.dfy`, `ParentRaces.dfy`: writing a finished child's result into its waiting parent, at once and with
  other writers between reading and writing.
- `CredentialRepair.dfy`: repairing credential references with two caches, against resolving each one alone.
- `ActivationQueue.dfy`: retrying failed activations with growing delays.
- `NodeGroups.dfy`, `Deduplication.dfy`: the group check and the deduplication of items by key.
- `Executions.dfy`, `Wrappers.dfy`: execution ids and statuses; options, counting and powers of two.

`dafny verify dfyconfig.toml` checks everything.

## Where the code differs from what it is meant to do

The code is modelled as it is. For each of these, lemmas show what goes wrong and say exactly when the code does what is
meant.

- `concurrency-queue.ts:44-54`: taking a queued execution out of the queue lets the next one in although no slot was
  freed. The limit is kept exactly on the runs in which no queued call is withdrawn while another one waits
  (`LimitKeptExactly`, `WithdrawalOvershoots`). The repository's own unit test expects this behaviour
  (`concurrency-queue.test.ts:52-56`).
- `active-executions.ts:326-345`: the shutdown switches the limit off before it empties the queue, and emptying does
  something exactly when the limit is on and somebody waits (`RemoveAllActsExactly`). So on every run a shutdown
  withdraws nobody (`ShutdownKeepsQueue`), and a queued call stays queued while the limit stays off
  (`QueuedStayQueued`). It does stay off exactly until the limit for evaluations is learnt
  (`concurrency-control.service.ts:113-133`, `StaysOffExactly`): a first evaluation during the shutdown lets the queued
  calls in again, although the comment at 327-329 rules that out (`LateSwitchOn`). No queued call is let in exactly
  when no slot is handed on with the limit on and a call waiting (`LetInExactly`).
- `wait-tracker.ts:122`: resuming drops the tracking entry without clearing its timer, so two live timers for one
  waiting execution are possible (`TwoLiveTimers`), exactly when a poll finds an execution whose entry is gone while its
  timer runs (`OneTimerExactly`). Only the conditional update prevents a second resume.
- `wait-tracker.ts:252-258`: stopping the tracking keeps the entries of the timers it clears, and the next poll sets a
  timer only where there is no entry (line 100). After losing and regaining leadership such an execution gets no timer
  (`StoppedStaysUntimed`, `StopLeavesEntry`). Every entry has its timer exactly as long as tracking is stopped only in
  processes without entries (`EntriesLiveExactly`).
- `active-executions.ts:126-130`: the conditional update asks for a waiting row, not for the same wait. A timer left over
  from one wait wins a later one and ends it early (`StaleTimerEndsLaterWait`), exactly when its attempt claims a row
  that was resumed since and waits again (`OwnWaitsExactly`).
- `workflow-runner.ts:237-387`: an error after the claim and before the workflow runs leaves the row running. A child's
  retry then finds it running and is dropped, so its parent stays running until it is cancelled (`RetryLosesParent`,
  `OrphanStays`). Running rows are run exactly as long as that and a crash of the owner do not happen
  (`RunningOwnedExactly`).
- `workflow-helpers.ts:588-665`: reading and writing the parent are two steps, and the write is not guarded by the status.
  The parent is what updates in the order of their writes make of it exactly when every write is harmless
  (`InOrderExactly`). Otherwise a success written last erases another child's failure (`RaceErasesFailure`,
  `RaceLosesResult`), usage flags are lost although the comment at 611-612 says they only accumulate
  (`RaceLosesUsage`), and a parent resumed in between is overwritten (`LateWriteHarmlessExactly`).
- `active-workflow-manager.ts:549-552`: activating an archived workflow returns as if it had succeeded, without leaving
  the queue and without a new timer. A retry uses the row captured when the workflow was queued. Of the three places
  that queue one, only line 749 can capture an archived row: it reads the row again after an isolate error. Contrary to
  the comment at 835-838 such a workflow is then tried once and never again (`ArchivedStalls`); if no archived row is
  queued, every queued workflow is retried for ever (`KeepsTrying`). On runs without queueing during an attempt that
  holds exactly when no queued workflow is skipped (`RetryingExactly`). The skip at 575-582 is never taken by a retry
  (`OnlyArchivedSkip`).
- `active-workflow-manager.ts:878`: queueing again during an attempt leaves a timer that no removal reaches
  (`RequeueInFlight`). No workflow is retried twice at once exactly when none is queued during an attempt for it
  (`OneRetryExactly`).
- `workflow-execute-additional-data.ts:251-254`: the deadline of a sub-workflow mirrors the runner's only with a positive
  maximum or no limit at all (`AgreementExactly`, `ZeroMaximumDisagrees`).
- `credentials-overwrites.ts:196-223`: with two parents the cache lets the last win and the lookup the first
  (`TwoParentsShow`). With one parent per type loading changes no lookup (`SingleIsInvisible`). Where the last known
  parent of every type with several is another one than its first, that is exactly single inheritance
  (`InvisibleIffSingle`).
- `workflow-helpers.ts:518-525`: a dead credential id that occurs with two names is answered from the first one
  (`IndependentExactly`, `CachedEqualsIndependent`, `DeadIdTakesFirstName`).
- `workflow-helpers.ts:260-266`: a node may be listed again after a group with the empty name (`EmptyNameSharesNode`,
  `NamedGroupsAreDisjoint`). The import from source control checks groups that no request schema has seen
  (`source-control-import.service.ee.ts:786`).

## Model

| member | source | states |
|---|---|---|
| ActiveExecutions.SlotConservation | packages/cli/src/active-executions.ts:61-174 | on every run, withdrawals included, free slots, slots in use and waiting calls add up to the limit until a shutdown switches it off, and the queue lists exactly the queued calls, each once, always |
| ActiveExecutions.SlotLimits | packages/cli/src/concurrency/concurrency-queue.ts:21-42 | on every run, until the limit is switched off, a call waits only while all slots are in use, and when nothing holds a slot all slots are free and nobody waits |
| ActiveExecutions.LimitKeptExactly | packages/cli/src/concurrency/concurrency-queue.ts:21-74 | until the limit is switched off it holds after every prefix of a run if and only if no queued call is withdrawn while another one waits |
| ActiveExecutions.StepWithin | packages/cli/src/concurrency/concurrency-queue.ts:44-54 | from a state within the limit a single step leaves it exactly when it is such a withdrawal |
| ActiveExecutions.WithdrawalOvershoots | packages/cli/src/concurrency/concurrency-queue.ts:44-54 | a concrete run with limit one that ends with two slots in use |
| ActiveExecutions.CalmConservation | packages/cli/src/active-executions.ts:103-173 | before shutdown, if executions are resumed or stopped as waiting only after their callback has run, the slots in use are the reserved calls under way plus the listed executions whose callback is outstanding |
| ActiveExecutions.CalmRunOwned | packages/cli/src/active-executions.ts:163-173 | on those runs every entry whose callback is outstanding is the one listed under its id, so the callback never removes another entry |
| ActiveExecutions.AlwaysIndexed | packages/cli/src/active-executions.ts:143-155 | on every run every listed id leads to an entry registered under that id |
| ActiveExecutions.FailedAddUndone | packages/cli/src/active-executions.ts:110-140 | a resuming call that gets its slot at once and fails leaves list, entries, slots and queue as they were, with or without a limit |
| ActiveExecutions.FailedNewAddUndone | packages/cli/src/active-executions.ts:82-140 | so does a call for a new execution that fails after its row was created |
| ActiveExecutions.UncreatedAddUndone | packages/cli/src/active-executions.ts:82-140 | so does one whose row is never created, whoever holds or awaits slots |
| ActiveExecutions.FailReturnsOwnSlot | packages/cli/src/active-executions.ts:137-140 | with anything in between, a failing call returns its own slot only, to the head of the queue if there is one, and touches no entry |
| ActiveExecutions.EndReturnsSlot | packages/cli/src/active-executions.ts:157-259 | cancelled or finished, an execution leaves the list, keeps its first outcome, and gives its slot back once; a second callback would do nothing |
| ActiveExecutions.FinalizeResolves | packages/cli/src/active-executions.ts:240-259 | finalising resolves a pending promise whatever the status, waiting included, and changes nothing else; it does nothing when the promise has settled or the id is unknown |
| ActiveExecutions.StopRejects | packages/cli/src/active-executions.ts:210-237 | stopping drops a waiting execution and leaves its promise, rejects the pending promise of any other, and ignores an unknown id |
| ActiveExecutions.StatusIsSet | packages/cli/src/active-executions.ts:307-309 | the listed entry gets the status, whatever it was, and nothing else changes |
| ActiveExecutions.RegisteredIsListed | packages/cli/src/active-executions.ts:142-155 | a call past its database step lists a running execution with a pending promise and the earlier start time if there is one, and no other listing or object changes |
| ActiveExecutions.StoppedIsGone | packages/cli/src/active-executions.ts:210-237 | a stopped execution leaves the list, at once if it waits and otherwise with its callback, and no other entry changes |
| ActiveExecutions.PromiseOneShot | packages/cli/src/active-executions.ts:143-173 | through every run an entry keeps its id, start time and slot claim, its promise settles at most once and is handled at most once |
| ActiveExecutions.StartTimeSurvivesResumes | packages/cli/src/active-executions.ts:144-155 | while an execution stays listed, its start time is that of the first registration through any number of waits and resumes |
| ActiveExecutions.AfterShutdownPass | packages/cli/src/active-executions.ts:324-343 | the first pass drops exactly the waiting and new entries, or, cancelling in regular mode, exactly the waiting ones while every other promise is settled |
| ActiveExecutions.QueuedStayQueued | packages/cli/src/active-executions.ts:326-345 | a queued call stays queued on every run on which the limit stays off |
| ActiveExecutions.LetInExactly | packages/cli/src/active-executions.ts:326-345 | on every run, shutdowns and late evaluations included, no queued call is let in if and only if no slot is handed on with the limit on and a call waiting |
| ActiveExecutions.StepLetsIn | packages/cli/src/concurrency/concurrency-queue.ts:38-54 | a single step lets a queued call in exactly when a held slot is given back, or a call withdrawn ahead of another one, with the limit on and a call waiting |
| ActiveExecutions.FirstComeFirstServed | packages/cli/src/concurrency/concurrency-queue.ts:26-73 | on every run: as long as a call waits, no call behind it in the queue is let in, and those left keep their order through withdrawals |
| ActiveExecutions.QueuesLast | packages/cli/src/concurrency/concurrency-queue.ts:26-31 | a call that starts to wait stands behind all that wait already |
| ActiveExecutions.WithdrawTakesFirst | packages/cli/src/concurrency/concurrency-queue.ts:44-54 | a withdrawal takes the first call that waits for that id, lets the first of the others in, and changes no other call |
| ActiveExecutions.StaysOffExactly | packages/cli/src/concurrency/concurrency-control.service.ts:113-133 | a limit that is off stays off if and only if the run never learns a limit for evaluations for the first time |
| ActiveExecutions.LateSwitchOnLetsIn | packages/cli/src/concurrency/concurrency-control.service.ts:113-133 | after that the next slot given back lets the first queued call in |
| ActiveExecutions.LateSwitchOn | packages/cli/src/concurrency/concurrency-control.service.ts:113-133 | a run in which a call queued when the shutdown begins is let in after it |
| ActiveExecutions.WaitLoopEnds | packages/cli/src/active-executions.ts:347-356 | when listed executions end in any order, exactly those that ended otherwise than waiting are gone |
| ActiveExecutions.OutstandingStep | packages/cli/src/active-executions.ts:347-356 | each end shrinks the list and leaves the rest to end, the measure of the wait loop |
| ActiveExecutions.PassStep | packages/cli/src/active-executions.ts:332-343 | visiting one more execution turns the pass without it into the pass with it, in any order |
| ActiveExecutions.ShutdownKeepsQueue | packages/cli/src/active-executions.ts:326-345 | on every run the limit is off when a shutdown comes to empty the queue, so no queued call is withdrawn |
| ActiveExecutions.RemoveAllActsExactly | packages/cli/src/concurrency/concurrency-control.service.ts:205-214 | emptying leaves the queue as it is if and only if the limit is off or nobody waits |
| ActiveExecutions.RemoveAllEmpties | packages/cli/src/concurrency/concurrency-control.service.ts:205-214 | with the limit on and at most one call waiting for each execution, emptying leaves nobody waiting |
| ActiveExecutions.ActiveExecutions.ReserveCapacity | packages/cli/src/concurrency/concurrency-queue.ts:21-32 | takes a slot or joins the end of the queue, exactly the machine's reservation |
| ActiveExecutions.ActiveExecutions.ReleaseCapacity | packages/cli/src/concurrency/concurrency-capacity-reservation.ts:30-36 | returns a held slot to the head of the queue or the free ones, and does nothing when none is held |
| ActiveExecutions.ActiveExecutions.StartAdd | packages/cli/src/active-executions.ts:82-100 | takes the step of a new call, up to the creation of the row |
| ActiveExecutions.ActiveExecutions.StartResume | packages/cli/src/active-executions.ts:111-116 | takes the step of a resuming call, up to its slot |
| ActiveExecutions.ActiveExecutions.RowCreated | packages/cli/src/active-executions.ts:100-105 | takes the step from the created row to the slot |
| ActiveExecutions.ActiveExecutions.FailAdd | packages/cli/src/active-executions.ts:132-140 | takes the step of a failing call |
| ActiveExecutions.ActiveExecutions.RemoveQueued | packages/cli/src/concurrency/concurrency-queue.ts:44-54 | finds the first queued call of that id and takes the machine's withdrawal step |
| ActiveExecutions.ActiveExecutions.RemoveAll | packages/cli/src/concurrency/concurrency-control.service.ts:205-214 | withdraws each id found in the queue once, in queue order, and does nothing when the limit is off |
| ActiveExecutions.ActiveExecutions.EnsureEvalQueueResolved | packages/cli/src/concurrency/concurrency-control.service.ts:113-133 | the first use switches limits on in regular mode if there is one for evaluations; later uses do nothing |
| ActiveExecutions.ActiveExecutions.CompleteAdd | packages/cli/src/active-executions.ts:142-155 | registers the execution, keeping the start time of the entry listed before |
| ActiveExecutions.ActiveExecutions.OnSettled | packages/cli/src/active-executions.ts:163-173 | takes the step of the removal callback |
| ActiveExecutions.ActiveExecutions.SetExecutionStatus | packages/cli/src/active-executions.ts:307-309 | sets the status of the listed entry, and reports a missing one |
| ActiveExecutions.ActiveExecutions.StopExecution | packages/cli/src/active-executions.ts:210-237 | drops a waiting entry, rejects the promise of any other, ignores an unknown id |
| ActiveExecutions.ActiveExecutions.FinalizeExecution | packages/cli/src/active-executions.ts:240-259 | resolves the promise of a listed entry unless it has settled |
| ActiveExecutions.ActiveExecutions.BeginShutdown | packages/cli/src/active-executions.ts:324-345 | switching the limit off, the loop over the ids in any order, and emptying the queue reach exactly the state of the one-step shutdown |
| ActiveExecutions.ActiveExecutions.PassExecution | packages/cli/src/active-executions.ts:332-343 | one round of the pass: stops the execution when cancelling, otherwise drops it if waiting or new |
| ActiveExecutions.ActiveExecutions.AwaitExecutions | packages/cli/src/active-executions.ts:347-356 | the wait loop terminates with an empty list when in each round any batch of the remaining executions, possibly none, ends without waiting and nothing is added |
| ResumeProtocol.AtMostOneResumePerWait | packages/cli/src/active-executions.ts:112-135 | on every run over any number of processes, timers and retries, no two resumes of an execution succeed in one waiting epoch |
| ResumeProtocol.ResumesBalanceWaits | packages/cli/src/active-executions.ts:112-135 | successful resumes, waits left otherwise and the present wait are together exactly the times the row started waiting |
| ResumeProtocol.SingleOwner | packages/cli/src/wait-tracker.ts:120-168 | at every moment of every run at most one attempt runs an execution, and none while its row waits |
| ResumeProtocol.RowStep | packages/cli/src/active-executions.ts:110-135 | the complete account of how a row comes to be and changes status: only a claim of a waiting row, its owner, or a cancellation changes it |
| ResumeProtocol.WaitStep | packages/cli/src/wait-tracker.ts:98-104 | a wait begins only when its owner parks a row that does not wait, and ends when the owner said |
| ResumeProtocol.LoadThenReserve | packages/cli/src/wait-tracker.ts:124-135 | an attempt goes on from loading exactly when the row exists and has not succeeded, whatever else its status |
| ResumeProtocol.FirstClaimWins | packages/cli/src/active-executions.ts:126-135 | of any number of attempts racing for one waiting row, in any order, the first wins, all others are dropped, and nothing else changes |
| ResumeProtocol.EndedStaysEnded | packages/cli/src/wait-tracker.ts:154-168 | an attempt that lost or ended never acts again, on any run |
| ResumeProtocol.RetriesBounded | packages/cli/src/wait-tracker.ts:201-219 | a child's resume of its parent is tried at most three times, a timer's once |
| ResumeProtocol.AttemptStep | packages/cli/src/wait-tracker.ts:229-249 | an attempt comes to wait for a retry if and only if an error worth retrying stops it with tries left, and is tried again only out of that wait; it never changes its execution or origin |
| ResumeProtocol.RetriedTwice | packages/cli/src/wait-tracker.ts:229-249 | an error is followed by another try exactly if it is worth retrying and hits a child's first or second try |
| ResumeProtocol.RunningOwnedExactly | packages/cli/src/workflow-runner.ts:237-387 | a row marked as running is run by some attempt after every prefix of a run if and only if no owner is stopped by an error before its workflow runs and none crashes |
| ResumeProtocol.StepRunningOwned | packages/cli/src/workflow-runner.ts:237-387 | a single step leaves a running row without owner exactly when it is such an error or crash |
| ResumeProtocol.OrphanStays | packages/cli/src/wait-tracker.ts:156-165 | a running row without owner keeps its state through any run that does not cancel it, whoever tries to resume it |
| ResumeProtocol.RetryLosesParent | packages/cli/src/wait-tracker.ts:213-219 | a run in which a child's resume fails after its claim, the retry finds the row running and is dropped, and the parent stays running with no owner |
| TimerTracking.TwoLiveTimers | packages/cli/src/wait-tracker.ts:98-122 | a run of two awaited children that leaves two live timers in one process for a parent that still waits; both polls find it within their 70 seconds |
| TimerTracking.OneTimerExactly | packages/cli/src/wait-tracker.ts:98-122 | no process ever has two live timers for one execution if and only if no poll finds one whose entry is gone while its timer runs |
| TimerTracking.StepOneTimer | packages/cli/src/wait-tracker.ts:98-109 | a single step breaks it exactly when it is such a poll |
| TimerTracking.OwnWaitsExactly | packages/cli/src/wait-tracker.ts:102-122 | timers end only the waits they were set for if and only if no timer's attempt claims a row that was resumed since and waits again |
| TimerTracking.StepOwnWaits | packages/cli/src/active-executions.ts:126-135 | a single step breaks that exactly when it is such a claim |
| TimerTracking.StaleTimerEndsLaterWait | packages/cli/src/active-executions.ts:126-135 | a run in which the timer left over from one wait wins the row and ends a later wait |
| TimerTracking.EntriesLiveExactly | packages/cli/src/wait-tracker.ts:251-261 | every entry keeps its timer on a run if and only if tracking is stopped only in processes without entries |
| TimerTracking.StopLeavesEntry | packages/cli/src/wait-tracker.ts:251-261 | a run that ends with an entry whose timer is off |
| TimerTracking.StepEntriesLive | packages/cli/src/wait-tracker.ts:251-261 | a single step leaves an entry without its timer exactly when it stops the tracking of a process with entries |
| TimerTracking.StoppedHasNoTimer | packages/cli/src/wait-tracker.ts:112-118 | where every entry has its timer and there is one per execution, stopping a waiting execution leaves no live timer for it, drops its entry and touches no other |
| TimerTracking.FiresOnce | packages/cli/src/wait-tracker.ts:100-122 | a live timer fires once, drops the entry of its execution and starts one attempt to resume it; a timer that is off does nothing |
| TimerTracking.DeadStaysDead | packages/cli/src/wait-tracker.ts:100-122 | a timer that is off stays off on every run |
| TimerTracking.CrashTakesAll | packages/cli/src/wait-tracker.ts:41-46 | a crash takes all timers, entries and open attempts of its process and nothing of the others |
| TimerTracking.KeptEntryBlocksPolls | packages/cli/src/wait-tracker.ts:100-108 | through any polls an execution with an entry keeps it and gets no new timer |
| WaitTracker.WaitTracker.GetWaitingExecutions | packages/cli/src/wait-tracker.ts:82-110 | sets a timer exactly for the executions found that have no entry, running until the end of the wait the poll saw, as the protocol's tracking steps do |
| WaitTracker.WaitTracker.TrackOne | packages/cli/src/wait-tracker.ts:98-109 | one round of that loop takes one tracking step |
| WaitTracker.PollTracks | packages/cli/src/wait-tracker.ts:98-109 | after a poll every execution found has an entry: its old one, or a new one whose timer runs for the rest of its wait |
| WaitTracker.WaitTracker.StartTracking | packages/cli/src/wait-tracker.ts:71-80 | switches tracking on and makes the first poll, as the protocol's tracking steps do |
| WaitTracker.WaitTracker.StopExecution | packages/cli/src/wait-tracker.ts:112-118 | clears the timer and drops the entry, as the protocol's step does |
| WaitTracker.WaitTracker.BeginStartExecution | packages/cli/src/wait-tracker.ts:120-122 | drops the entry and leaves its timer running |
| WaitTracker.WaitTracker.EndTracking | packages/cli/src/wait-tracker.ts:251-261 | turns off exactly the tracked timers, keeps every entry, and does nothing when tracking never started |
| WaitTracker.StoppedTimersAreOff | packages/cli/src/wait-tracker.ts:251-261 | after tracking stops every entry remains and its timer is off |
| WaitTracker.StoppedStaysUntimed | packages/cli/src/wait-tracker.ts:100-108 | after tracking stops, an execution that had an entry has no live timer through any later polls of that process |
| WaitTracker.WithRetry | packages/cli/src/wait-tracker.ts:235-249 | for any limit the calls are exactly min(first success, first error not worth retrying, limit), the last outcome is returned, and the sleep is 100 * (2^(calls-1) - 1) ms |
| WaitTracker.ResumeParentExecution | packages/cli/src/wait-tracker.ts:191-226 | nothing happens unless the child ended without waiting; the parent is started if and only if its update succeeded; failure is reported exactly when the child threw or a step gave up |
| CredentialTypes.GetParentTypes | packages/cli/src/credential-types.ts:26-38 | the loop over the array it appends to terminates on every acyclic relation and returns the specified list |
| CredentialTypes.GrowStep | packages/cli/src/credential-types.ts:33-35 | one iteration keeps the bag of visited and outstanding types and shrinks the outstanding part by one |
| CredentialTypes.AcyclicIffRanked | packages/cli/src/credential-types.ts:26-38 | a relation can be ranked, the condition of the other results, if and only if no set of types is closed under having a parent in it |
| CredentialTypes.ParentListIsAncestors | packages/cli/src/credential-types.ts:23-38 | the members of the list are exactly the transitive ancestors |
| CredentialTypes.ParentListPrefix | packages/cli/src/credential-types.ts:31-37 | the list begins with the direct parents followed by the whole list of each of them in turn |
| CredentialTypes.ListStartsWithChain | packages/cli/src/credential-types.ts:31-37 | with one parent per type the list begins with all ancestors, nearest first |
| CredentialOverwrites.NearestDefinerWins | packages/cli/src/credentials-overwrites.ts:103-116 | with one parent per type, after loading in any key order, the lookup gives every field the value of the nearest type on the chain that defines it in the original data |
| CredentialOverwrites.CacheRefinesLookup | packages/cli/src/credentials-overwrites.ts:103-223 | loading in any key order changes no lookup, and each lookup gives every field its nearest value, wherever parents do not disagree |
| CredentialOverwrites.LookupIsNearest | packages/cli/src/credentials-overwrites.ts:210-223 | the lookup gives the nearest value whatever part of the merging has been done |
| CredentialOverwrites.LoadPartlyMerged | packages/cli/src/credentials-overwrites.ts:103-116 | after loading, an entry keeps its raw fields and holds besides only fields with their nearest value |
| CredentialOverwrites.SecondStaysEmpty | packages/cli/src/credentials-overwrites.ts:178-208 | data on which loading merges an inherited field into one type's entry and not into its sibling's, because the type between counts as resolved, while the lookup answers alike for both |
| CredentialOverwrites.ReloadKeepsLookups | packages/cli/src/credentials-overwrites.ts:103-116 | loading the loaded data again, in any key order, changes no lookup |
| CredentialOverwrites.InvisibleIffSingle | packages/cli/src/credentials-overwrites.ts:196-223 | if the last known parent of every type with several parents is another one than its first: loading changes no lookup for any data in any order if and only if no type has several parents |
| CredentialOverwrites.SingleIsInvisible | packages/cli/src/credentials-overwrites.ts:196-223 | with at most one parent per type, known or not, loading changes no lookup for any data in any order |
| CredentialOverwrites.TwoParentsShow | packages/cli/src/credentials-overwrites.ts:196-223 | data on which a type whose last known parent is another one than its first looks different after loading; all other types, and its unknown parents, are arbitrary |
| CredentialOverwrites.NearestOnChain | packages/cli/src/credentials-overwrites.ts:210-223 | with one parent per type the nearest value is that of the first definer along the chain |
| CredentialOverwrites.ApplyContract | packages/cli/src/credentials-overwrites.ts:140-176 | a non-empty user value never changes, every empty overwritten field is filled unless the type is on the skip list and customised, and applying twice is applying once |
| CredentialOverwrites.ReplacedExactly | packages/cli/src/credentials-overwrites.ts:140-176 | spelt out by values: exactly undefined, null and the empty text are replaced in overwritten fields, numbers and flags never, unless the type is on the skip list and an overwritten field holds another value of the user's |
| CredentialOverwrites.ManagedExactly | packages/cli/src/credentials-overwrites.ts:233-241 | an overwritten field changes if and only if the overwrite applies and some blank field has another value to receive |
| CredentialOverwrites.CredentialsOverwrites.GetOverwrites | packages/cli/src/credentials-overwrites.ts:178-208 | resolves a type as specified and records it and what it resolved on the way |
| CredentialOverwrites.CredentialsOverwrites.SetPlainData | packages/cli/src/credentials-overwrites.ts:103-116 | leaves exactly the loaded data, for every key order |
| CredentialOverwrites.CredentialsOverwrites.Get | packages/cli/src/credentials-overwrites.ts:210-223 | returns the layers of the type and its parent list, nearest on top, or nothing when none has an entry |
| CredentialOverwrites.CredentialsOverwrites.ApplyOverwrite | packages/cli/src/credentials-overwrites.ts:140-176 | returns the filled data that the contract above is about |
| CredentialOverwrites.CredentialsOverwrites.UsesManagedAuth | packages/cli/src/credentials-overwrites.ts:233-241 | true if and only if applying the overwrite changes an overwritten field |
| Deadlines.ChainDeadlineIsEarliest | packages/cli/src/workflow-execute-additional-data.ts:275-287 | at any depth the deadline is the earliest own deadline back to the nearest detached level: no later than each and equal to one, or absent if none has one |
| Deadlines.EarliestIsUnique | packages/cli/src/workflow-execute-additional-data.ts:275-287 | that description fits one deadline only |
| Deadlines.AwaitedIsNoLater | packages/cli/src/workflow-execute-additional-data.ts:569-575 | an awaited descendant at any depth never has a later deadline than its ancestor |
| Deadlines.AgreementExactly | packages/cli/src/workflow-execute-additional-data.ts:242-270 | the sub-workflow's and the runner's computation agree if and only if the maximum is positive or no limit is asked for |
| Deadlines.OwnDeadlineExactly | packages/cli/src/workflow-execute-additional-data.ts:242-270 | with a positive maximum both deadlines are missing if and only if no limit is asked for, and otherwise come after the smaller of the limit asked for and the maximum |
| Deadlines.HardStopExactly | packages/cli/src/workflow-runner.ts:438-460 | with a positive maximum an execution, started or resumed, is stopped if and only if a limit is asked for, after the smaller of that and the maximum from its first start, at once when that has passed |
| Deadlines.NoMaximum | packages/cli/src/workflow-execute-additional-data.ts:247-269 | without a positive maximum a sub-workflow gets all it asks for, and the runner sets neither deadline nor stop |
| Deadlines.ZeroMaximumDisagrees | packages/cli/src/workflow-execute-additional-data.ts:247-262 | with a maximum of zero and a setting of ten seconds the sub-workflow has a deadline and the runner sets none |
| Deadlines.ResumeStop | packages/cli/src/workflow-runner.ts:438-460 | a resumed execution is stopped at the later of now and its start plus its limit |
| Deadlines.StopSurvivesResumes | packages/cli/src/workflow-runner.ts:438-460 | through any number of resumes the stop instant is the same while it lies ahead and immediate afterwards |
| Deadlines.HardStopComesFirst | packages/cli/src/workflow-runner.ts:370-372 | the soft deadline, counted anew on each resume, never comes before the hard stop |
| ParentUpdate.LastSuccessWins | packages/cli/src/workflow-helpers.ts:646-660 | after any sequence of atomic updates the top entry's data is the last successful child's output and the rest of the stack is untouched |
| ParentUpdate.LastFailureStays | packages/cli/src/workflow-helpers.ts:646-654 | the resume error and link are the last failing child's and no later success removes them |
| ParentUpdate.UsageAccumulates | packages/cli/src/workflow-helpers.ts:609-619 | the usage flags are the union over all reporting children |
| ParentUpdate.LastUserWins | packages/cli/src/workflow-helpers.ts:613-619 | the resolved user on the entry is the last one reported |
| ParentUpdate.RuntimeUserFollows | packages/cli/src/workflow-helpers.ts:636-643 | existing runtime data names the last resolved user reported |
| ParentUpdate.RuntimeUserKept | packages/cli/src/workflow-helpers.ts:636-643 | without such a report it keeps its user, and it never appears or disappears |
| ParentUpdate.TasksAccumulate | packages/cli/src/workflow-helpers.ts:625-635 | the waiting task carries the same union and every other task keeps its flags |
| ParentUpdate.OthersNeverChange | packages/cli/src/workflow-helpers.ts:595-604 | a parent that is not waiting when it is read, or has nothing on its stack, is never changed by atomic updates |
| ParentUpdate.NothingToWrite | packages/cli/src/workflow-helpers.ts:586-604 | a child with neither error nor output changes nothing, whatever usage it had, nor does any child a parent that does not wait or has an empty stack |
| ParentUpdate.ReportArrives | packages/cli/src/workflow-helpers.ts:646-660 | otherwise the error, or without one the output, arrives at the top entry, alone |
| ParentRaces.InOrderExactly | packages/cli/src/workflow-helpers.ts:588-665 | with any number of children reading and writing in two steps and any other writes in between: after every prefix the parent is what atomic updates, in the order of the writes since the last other one, make of it, if and only if every write is harmless: the row differs from what was read only where the child brings its own value, and if it waits no more it carries all the child reports |
| ParentRaces.WriteExactly | packages/cli/src/workflow-helpers.ts:662-665 | one write does what an atomic update of the present row would do if and only if it is harmless |
| ParentRaces.ReadsNow | packages/cli/src/workflow-helpers.ts:586-604 | reading takes the row as it is now exactly if the child has something to report and the parent waits with a stack |
| ParentRaces.StampsMeetExactly | packages/cli/src/workflow-helpers.ts:609-660 | working a report into two states of the parent gives the same data if and only if they differ only where the report brings its own value |
| ParentRaces.UndisturbedIsHarmless | packages/cli/src/workflow-helpers.ts:588-665 | a write that finds the row as it was read is harmless |
| ParentRaces.LateWriteHarmlessExactly | packages/cli/src/workflow-helpers.ts:595-665 | resumed without changed data, it is unchanged if and only if nothing is written or it already carried all the child reports |
| ParentRaces.LateWriteChangesRunning | packages/cli/src/workflow-helpers.ts:662-665 | a parent that was resumed in between is given an output it no longer waits for |
| ParentRaces.UpdateIdleExactly | packages/cli/src/workflow-helpers.ts:609-660 | an update changes nothing if and only if the parent carries the child's flags, user, error, link and output already |
| ParentRaces.RaceLosesUsage | packages/cli/src/workflow-helpers.ts:588-665 | two interleaved updates leave one of the two results whole, and lose the first child's used flag, or its attempted flag, if and only if only that child reports it |
| ParentRaces.RaceLosesResult | packages/cli/src/workflow-helpers.ts:646-660 | two interleaved updates lose the first child's error, link, output or user if and only if the second child brings none of its own and the parent did not hold it |
| ParentRaces.RaceErasesFailure | packages/cli/src/workflow-helpers.ts:588-665 | a run in which a success written last erases the failure of the other child with its link and usage |
| ParentUpdate.ExecutionStore.UpdateParentExecutionWithChildResults | packages/cli/src/workflow-helpers.ts:581-666 | changes the parent's row by exactly one update and no other row |
| CredentialRepair.ReplaceInvalidCredentials | packages/cli/src/workflow-helpers.ts:409-530 | the pass with its two caches leaves every reference as specified |
| CredentialRepair.ResolveExactly | packages/cli/src/workflow-helpers.ts:421-520 | by the rows alone: a known id becomes that credential; a name, or an unknown id, becomes the credential of that name and kind if exactly one may be used; everything else, with none or several of that name too, stays |
| CredentialRepair.RepairedExactly | packages/cli/src/workflow-helpers.ts:409-530 | what the pass makes of every reference: by an id first met unresolvable, what stood there; otherwise what it is resolved to alone |
| CredentialRepair.CachedEqualsIndependent | packages/cli/src/workflow-helpers.ts:409-530 | the pass equals resolving every reference alone, up to writing a bare name with a null id, if and only if references by an id that proved dead agree on the name |
| CredentialRepair.IndependentExactly | packages/cli/src/workflow-helpers.ts:484-525 | for each reference: it differs exactly when an earlier unresolvable reference by its id had another name |
| CredentialRepair.DeadIdTakesFirstName | packages/cli/src/workflow-helpers.ts:484-525 | two references by a dead id of which the second would be repaired on its own and is not |
| CredentialRepair.CachesAreSound | packages/cli/src/workflow-helpers.ts:416-526 | at every point of the pass every cached answer is right, every id entry keeps its key as its id, and a dead id is cached with its first unresolvable reference |
| CredentialRepair.RepairIsIdempotent | packages/cli/src/workflow-helpers.ts:409-530 | a second pass changes nothing |
| ActivationQueue.DelayClosedForm | packages/cli/src/active-workflow-manager.ts:840-897 | on every run each entry's delay follows from the failures it has recorded, and its timer was set with it |
| ActivationQueue.DelayCountsFailures | packages/cli/src/active-workflow-manager.ts:854-878 | on every run the delay of a queued workflow and of its timer is min(1000 * 2^n, 86400000), where n counts the failures in the run since it was queued last that were not isolate errors |
| ActivationQueue.IsolateKeepsDelay | packages/cli/src/active-workflow-manager.ts:861-864 | a run in which an isolate error leaves the delay at a second |
| ActivationQueue.BackoffMonotone | packages/cli/src/constants.ts:90-91 | more failures never shorten the delay, which never exceeds a day |
| ActivationQueue.KeepsTrying | packages/cli/src/active-workflow-manager.ts:835-897 | if no archived row is ever queued, every queued workflow has its timer set or an attempt under way after every prefix of every run |
| ActivationQueue.RetryingExactly | packages/cli/src/active-workflow-manager.ts:847-885 | on runs without queueing during an attempt, queued workflows are retried for ever if and only if none of them is skipped |
| ActivationQueue.UnskippedKeepTrying | packages/cli/src/active-workflow-manager.ts:847-885 | without such a skip they are retried for ever on every run whatever |
| ActivationQueue.SkipStalls | packages/cli/src/active-workflow-manager.ts:549-552 | from a state with at most one retry per workflow, a skip leaves a queued workflow with neither timer nor attempt |
| ActivationQueue.OnlyArchivedSkip | packages/cli/src/active-workflow-manager.ts:541-582 | on every run a retry is skipped if and only if its captured row is archived; the skip for a missing active version is never taken |
| ActivationQueue.ArchivedStalls | packages/cli/src/active-workflow-manager.ts:748-749 | a run that queues an archived row, tries once, and leaves the workflow queued without timer or attempt |
| ActivationQueue.NeverTwoRetries | packages/cli/src/active-workflow-manager.ts:887-897 | without queueing again during an attempt, a live timer is its entry's own and no workflow has two attempts, or a timer and an attempt, at once |
| ActivationQueue.OneRetryExactly | packages/cli/src/active-workflow-manager.ts:887-897 | after every prefix of a run no workflow has two attempts, two live timers or both at once, and a live timer is its entry's own, if and only if none is queued during an attempt for it |
| ActivationQueue.StepOneExactly | packages/cli/src/active-workflow-manager.ts:887-897 | a single step breaks that exactly when it queues a workflow during an attempt for it |
| ActivationQueue.RemovalIsFinal | packages/cli/src/active-workflow-manager.ts:902-907 | after a removal no attempt starts until the workflow is queued again |
| ActivationQueue.AllAreRemoved | packages/cli/src/active-workflow-manager.ts:912-916 | removing all leaves nothing queued and no former entry's timer running, and touches no other timer |
| ActivationQueue.NothingFiresAfterRemoveAll | packages/cli/src/active-workflow-manager.ts:912-916 | on runs without queueing during an attempt no timer at all is left then |
| ActivationQueue.RequeueInFlight | packages/cli/src/active-workflow-manager.ts:877-879 | queueing again during an attempt can leave a live timer after removal |
| ActivationQueue.ActiveWorkflowManager.AddQueuedWorkflowActivation | packages/cli/src/active-workflow-manager.ts:887-897 | clears the old timer and queues the workflow with a new one |
| ActivationQueue.ActiveWorkflowManager.BeginRetry | packages/cli/src/active-workflow-manager.ts:847-853 | a live timer fires once and opens one attempt for its workflow |
| ActivationQueue.ActiveWorkflowManager.EndRetry | packages/cli/src/active-workflow-manager.ts:853-880 | does nothing but end when the captured row is skipped, leaves the queue on success, sets the next timer on failure, and sets none when the entry is gone |
| ActivationQueue.ActiveWorkflowManager.RemoveQueuedWorkflowActivation | packages/cli/src/active-workflow-manager.ts:902-907 | clears the timer and drops the entry |
| ActivationQueue.ActiveWorkflowManager.RemoveAllQueuedWorkflowActivations | packages/cli/src/active-workflow-manager.ts:912-916 | clears exactly the timers in use and empties the queue, in any order |
| NodeGroups.ValidateWorkflowNodeGroups | packages/cli/src/workflow-helpers.ts:221-268 | accepts if and only if ids and names are distinct, groups have members, members are nodes and none is listed again after a named group; every error names a fault that is there |
| NodeGroups.ValidateMembers | packages/cli/src/workflow-helpers.ts:252-267 | the inner loop finds a fault of the group or extends the record of which group listed each node last |
| NodeGroups.ValidateHeader | packages/cli/src/workflow-helpers.ts:236-250 | passes exactly a group with members whose id and name are new, and otherwise names the fault |
| NodeGroups.NamedGroupsAreDisjoint | packages/cli/src/workflow-helpers.ts:259-266 | when all groups have names, acceptance means no node is listed twice |
| NodeGroups.EmptyNameSharesNode | packages/cli/src/workflow-helpers.ts:259-266 | accepted groups of which two share a node, the first of them having the empty name |
| NodeGroups.TruthfulIsFault | packages/cli/src/workflow-helpers.ts:235-268 | groups with a fault an error can name are never acceptable |
| Deduplication.CheckProcessedItemsAndRecord | packages/core/src/data-deduplication-service.ts:59-85 | asks for each key of an item once; each answer is the last item with its key, on the side its key was put; every key has exactly one answer |

## Left out

- Queue mode, worker processes, several main processes, leader election: only the database row is shared between processes here.
- Evaluation executions take no slot: they are the calls that are not `limited`. The separate evaluation queue is not modelled, only that learning its limit switches limits on.
- ResumeProtocol.RunningOwnedExactly: an owner may fail at any time before it parks or finishes, which includes the time before its workflow runs; the entry that stays behind in its process is not part of it.
- Recovery of executions left `running` by a crashed process is not modelled; a crash ends the attempts of its process.
- Database calls are atomic steps. In ParentUpdate the whole parent update is one; in ParentRaces reading and writing are two.
- Response promises, streaming responses, response modes, events, logs and telemetry are left out.
- Deciding by `shouldResume` whether a parent is resumed at all is left out; a child's end stands for a parent to resume.
- Which data a finished child hands over (its last executed node's items, its usage summary) is given, not computed.
- `extends` cycles are excluded: on them the source does not terminate.
- The `extends` list of a type's description and of the known-credentials table are taken to be the same.
- CredentialOverwrites.CacheRefinesLookup: assumes that parents who define a field agree on it; single inheritance implies this, and TwoParentsShow shows what happens otherwise.
- CredentialOverwrites.InvisibleIffSingle: says nothing about types with several parents whose last known one is the first, or of which none is known; loading can be invisible for them.
- CredentialOverwrites.ApplyContract: field values are primitive; objects compared by identity and NaN are not modelled.
- CredentialRepair.CachedEqualsIndependent: types and names that coincide with inherited object properties are not modelled, nor an id that is undefined; nodes and their credentials are flattened into one sequence; the database does not change during the pass.
- ActiveExecutions.ActiveExecutions.AwaitExecutions: sleeping and logging are left out.
- ActiveExecutions.ActiveExecutions.RemoveAll: the ids it would mark as cancelled in the database are left out.
- ActiveExecutions.SlotConservation: says nothing about the slots once a late evaluation has switched a lapsed limit on again; calls let through in between hold none.
- ActiveExecutions.CalmConservation: counts an execution until its removal callback has run, which is shortly after its promise settles.
- Deadlines.AgreementExactly: limits are whole seconds, and a null limit is not modelled.
- Deadlines.StopSurvivesResumes: the largest delay a Node timer takes is not modelled.
- Deduplication.CheckProcessedItemsAndRecord: extracting and printing the property is the function `keyOf`; the deduplicator is assumed to put every key on one side.
- NodeGroups.ValidateWorkflowNodeGroups: the basic checks only; the connectivity and trigger checks that need node types are left out.
- Proofs take a `rank` of the credential types as a ghost parameter; AcyclicIffRanked says that one exists exactly on acyclic relations.
- What `add` of the workflow manager does besides skipping and leaving the queue is left out: an attempt not skipped succeeds or fails. Captured rows do not change after they were read.
- ActivationQueue.OnlyArchivedSkip: takes from their callers that a failed start or trigger had a row `add` did not skip, and that the commands handled at line 720 are published for requests only.
