/** The timers of all processes: how many are set for an execution, for which wait, and whose entry they belong to. */
module TimerTracking {
  import opened Wrappers
  import opened Executions
  import opened ResumeProtocol

  // ---- One live timer per execution and process ----

  ghost predicate LiveTimer(w: World, t: nat, process: ProcessId, id: ExecutionId) {
    t < |w.timers| && w.timers[t].process == process && w.timers[t].id == id && w.timers[t].live
  }

  /** No process has two live timers for one execution. */
  ghost predicate OneTimer(w: World) {
    forall t, u :: 0 <= t < u < |w.timers| && w.timers[t].live && w.timers[u].live ==>
      w.timers[t].process != w.timers[u].process || w.timers[t].id != w.timers[u].id
  }

  /** The step sets a timer. */
  predicate SetsTimer(w: World, a: Action) {
    a.Track? && Polled(w, a.id, a.epoch, a.asked) && (a.process, a.id) !in w.tracked
  }

  /** A poll finds an execution that has no entry any more, while its timer still runs. */
  ghost predicate Overtracks(w: World, a: Action) {
    SetsTimer(w, a) && exists t: nat :: LiveTimer(w, t, a.process, a.id)
  }

  lemma StepOneTimer(w: World, a: Action)
    requires OneTimer(w)
    ensures OneTimer(Next(w, a)) <==> !Overtracks(w, a)
  {
    var w' := Next(w, a);
    if Overtracks(w, a) {
      var t: nat :| LiveTimer(w, t, a.process, a.id);
      TimerSet(w, a);
      assert w'.timers[t] == w.timers[t];
    } else if SetsTimer(w, a) {
      TimerSet(w, a);
      forall t, u | 0 <= t < u < |w'.timers| && w'.timers[t].live && w'.timers[u].live
        ensures w'.timers[t].process != w'.timers[u].process || w'.timers[t].id != w'.timers[u].id
      {
        assert !LiveTimer(w, t, a.process, a.id);
      }
    } else {
      TimersOnlyClear(w, a);
    }
  }

  lemma TimerSet(w: World, a: Action)
    requires SetsTimer(w, a)
    ensures var w' := Next(w, a);
      && |w'.timers| == |w.timers| + 1 && w'.timers[..|w.timers|] == w.timers
      && LiveTimer(w', |w.timers|, a.process, a.id) && w'.timers[|w.timers|].epoch == a.epoch
  {
  }

  /** Only tracking an execution without an entry sets a timer. */
  lemma TimersOnlyClear(w: World, a: Action)
    requires !SetsTimer(w, a)
    ensures |Next(w, a).timers| == |w.timers|
    ensures forall t :: 0 <= t < |w.timers| ==>
      Next(w, a).timers[t] == w.timers[t] || Next(w, a).timers[t] == w.timers[t].(live := false)
  {
  }

  /** At most one live timer after every prefix of the run. */
  ghost predicate AlwaysOneTimer(run: seq<Action>) {
    OneTimer(Run(INIT, run)) && (run != [] ==> AlwaysOneTimer(run[..|run| - 1]))
  }

  ghost predicate NeverOvertracks(run: seq<Action>) {
    run != [] ==>
      NeverOvertracks(run[..|run| - 1]) && !Overtracks(Run(INIT, run[..|run| - 1]), run[|run| - 1])
  }

  /** No process ever has two live timers for one execution exactly when no poll finds one
      whose entry is gone while its timer runs. */
  lemma {:induction false} OneTimerExactly(run: seq<Action>)
    ensures AlwaysOneTimer(run) <==> NeverOvertracks(run)
  {
    if run != [] {
      var front := run[..|run| - 1];
      OneTimerExactly(front);
      if AlwaysOneTimer(front) {
        StepOneTimer(Run(INIT, front), run[|run| - 1]);
      }
    }
  }

  // ---- A run with two live timers, the older of which ends a later wait ----

  /** Awaiting two children the execution parks; the first one resumes it, it parks again until `due`, and is tracked.
      The second one starts to resume it, and the next poll tracks it again. */
  function RetrackedRun(id: ExecutionId, due: int): seq<Action> {
    ResumedRun(id) + ([Park(1, due), Track(0, id, 2, due - 70000, due - 70000)] +
                      [ChildDone(0, id), Track(0, id, 2, due - 10000, due - 10000)])
  }

  /** The second child resumes it and it parks until `later`; the timer set for the wait until `due` fires. */
  function StaleRun(id: ExecutionId, due: int, later: int): seq<Action> {
    RetrackedRun(id, due) + (Resume(2) + ([Park(2, later), Fire(0)] + Resume(3)))
  }

  function Firsts(id: ExecutionId): seq<Attempt> {
    [Attempt(0, id, Fresh, Ended(Parked), 1), Attempt(0, id, FromChild, Ended(Parked), 1)]
  }

  /** Waiting until `due`; nothing is tracked yet. */
  function SecondWait(id: ExecutionId, due: int): World {
    World(map[id := Row(Waiting, [WAIT_INDEFINITELY, due], 0)], Firsts(id), [], map[], [Win(id, 1, 1)])
  }

  /** The same with both timers set, while the second child's attempt is in `phase`. */
  function Overlapping(id: ExecutionId, due: int, phase: Phase): World {
    SecondWait(id, due).(
      attempts := Firsts(id) + [Attempt(0, id, FromChild, phase, 1)],
      timers := [Timer(0, id, 2, 70000, true), Timer(0, id, 2, 10000, true)],
      tracked := map[(0, id) := 1])
  }

  /** Waiting until `later`, or running again; the first timer has fired and its attempt is in `phase`. */
  function ThirdWait(id: ExecutionId, due: int, later: int, phase: Phase): World {
    World(
      map[id := Row(if phase == Owning then Running else Waiting, [WAIT_INDEFINITELY, due, later], 0)],
      Firsts(id) + [Attempt(0, id, FromChild, Ended(Parked), 1), Attempt(0, id, FromTimer(2), phase, 1)],
      [Timer(0, id, 2, 70000, false), Timer(0, id, 2, 10000, true)],
      map[],
      [Win(id, 1, 1), Win(id, 2, 2)] + if phase == Owning then [Win(id, 3, 3)] else [])
  }

  lemma RetrackedReached(id: ExecutionId, due: int)
    ensures Run(INIT, RetrackedRun(id, due)) == Overlapping(id, due, Loading)
  {
    var w := LostParent(id, Running, Owning, 1);
    var parkTrack := [Park(1, due), Track(0, id, 2, due - 70000, due - 70000)];
    var doneTrack := [ChildDone(0, id), Track(0, id, 2, due - 10000, due - 10000)];
    ResumedReached(id);
    ParkAgain(id, due);
    TrackTwice(id, due);
    RunTwo(w, parkTrack[0], parkTrack[1]);
    RunTwo(Next(SecondWait(id, due), parkTrack[1]), doneTrack[0], doneTrack[1]);
    RunConcat(w, parkTrack, doneTrack);
    RunConcat(INIT, ResumedRun(id), parkTrack + doneTrack);
  }

  lemma ParkAgain(id: ExecutionId, due: int)
    ensures Next(LostParent(id, Running, Owning, 1), Park(1, due)) == SecondWait(id, due)
  {
    var w := LostParent(id, Running, Owning, 1);
    assert ToWaiting(w.rows[id], due) == Row(Waiting, [WAIT_INDEFINITELY, due], 0);
    assert w.attempts[1 := w.attempts[1].(phase := Ended(Parked))] == Firsts(id);
  }

  lemma TrackTwice(id: ExecutionId, due: int)
    ensures var w := SecondWait(id, due);
      Next(Next(Next(w, Track(0, id, 2, due - 70000, due - 70000)), ChildDone(0, id)),
           Track(0, id, 2, due - 10000, due - 10000)) == Overlapping(id, due, Loading)
  {
    var w := SecondWait(id, due);
    var w1 := w.(timers := [Timer(0, id, 2, 70000, true)], tracked := map[(0, id) := 0]);
    var w2 := w1.(attempts := Firsts(id) + [Attempt(0, id, FromChild, Loading, 1)], tracked := map[]);
    assert Next(w, Track(0, id, 2, due - 70000, due - 70000)) == w1;
    assert Next(w1, ChildDone(0, id)) == w2;
    assert Next(w2, Track(0, id, 2, due - 10000, due - 10000)) == Overlapping(id, due, Loading);
  }

  /** A child's resume leaves the old timer running, so a poll while the row still waits adds a second live one. */
  lemma TwoLiveTimers(id: ExecutionId, due: int)
    ensures var w := Run(INIT, RetrackedRun(id, due));
      && LiveTimer(w, 0, 0, id) && LiveTimer(w, 1, 0, id)
      && id in w.rows && w.rows[id].status == Waiting
  {
    RetrackedReached(id, due);
  }

  // ---- A timer resumes in the wait it was set for ----

  /** Whenever a timer's attempt wins the row, it wins in the wait the timer was set for. */
  ghost predicate OwnWaits(w: World) {
    forall k :: 0 <= k < |w.wins| ==>
      w.wins[k].attempt < |w.attempts| && OwnWait(w.attempts[w.wins[k].attempt], w.wins[k])
  }

  predicate OwnWait(a: Attempt, win: Win) {
    a.origin.FromTimer? ==> a.origin.epoch == win.epoch
  }

  /** A timer's attempt claims the row in another wait than its timer was set for. */
  predicate ClaimsForeign(w: World, a: Action) {
    && a.Claim? && At(w, a.attempt, Claiming)
    && var x := w.attempts[a.attempt];
       x.id in w.rows && w.rows[x.id].status == Waiting && x.origin.FromTimer? && x.origin.epoch != Epoch(w.rows[x.id])
  }

  lemma StepOwnWaits(w: World, a: Action)
    requires OwnWaits(w)
    ensures OwnWaits(Next(w, a)) <==> !ClaimsForeign(w, a)
  {
    var w' := Next(w, a);
    WinsAfter(w, a);
    if ClaimsForeign(w, a) {
      AttemptStep(w, a, a.attempt);
      assert !OwnWait(w'.attempts[a.attempt], w'.wins[|w.wins|]);
    } else {
      forall k | 0 <= k < |w'.wins|
        ensures w'.wins[k].attempt < |w'.attempts| && OwnWait(w'.attempts[w'.wins[k].attempt], w'.wins[k])
      {
        AttemptStep(w, a, w'.wins[k].attempt);
      }
    }
  }

  /** Only a claim of a waiting row adds a win, for its own attempt and the present wait. */
  lemma WinsAfter(w: World, a: Action)
    ensures var w' := Next(w, a);
      if a.Claim? && At(w, a.attempt, Claiming) && w.attempts[a.attempt].id in w.rows &&
         w.rows[w.attempts[a.attempt].id].status == Waiting
      then var id := w.attempts[a.attempt].id; w'.wins == w.wins + [Win(id, Epoch(w.rows[id]), a.attempt)]
      else w'.wins == w.wins
  {
    if !WritesRow(a) {
      OtherRows(w, a);
    }
  }

  ghost predicate AlwaysOwnWaits(run: seq<Action>) {
    OwnWaits(Run(INIT, run)) && (run != [] ==> AlwaysOwnWaits(run[..|run| - 1]))
  }

  ghost predicate NeverClaimsForeign(run: seq<Action>) {
    run != [] ==>
      NeverClaimsForeign(run[..|run| - 1]) && !ClaimsForeign(Run(INIT, run[..|run| - 1]), run[|run| - 1])
  }

  /** Timers end only the waits they were set for, exactly when none of their attempts claims a row
      that has been resumed and waits again. */
  lemma {:induction false} OwnWaitsExactly(run: seq<Action>)
    ensures AlwaysOwnWaits(run) <==> NeverClaimsForeign(run)
  {
    if run != [] {
      var front := run[..|run| - 1];
      OwnWaitsExactly(front);
      if AlwaysOwnWaits(front) {
        StepOwnWaits(Run(INIT, front), run[|run| - 1]);
      }
    }
  }

  /** The conditional update does not tell waits apart: a timer left over from the wait until `due`
      ends the wait until `later`. */
  lemma StaleTimerEndsLaterWait(id: ExecutionId, due: int, later: int)
    ensures var w := Run(INIT, StaleRun(id, due, later));
      w == ThirdWait(id, due, later, Owning) && !OwnWaits(w)
  {
    var w1, w2, w3 := Overlapping(id, due, Loading), Overlapping(id, due, Claiming), ThirdWait(id, due, later, Loading);
    var parkFire := [Park(2, later), Fire(0)];
    RetrackedReached(id, due);
    SecondChildResumes(id, due, later);
    StaleTimerFires(id, due, later);
    StaleTimerWins(id, due, later);
    RunThree(w1, Load(2), Reserve(2), Claim(2));
    RunTwo(Next(w2, Claim(2)), Park(2, later), Fire(0));
    RunThree(w3, Load(3), Reserve(3), Claim(3));
    RunConcat(Next(w2, Claim(2)), parkFire, Resume(3));
    RunConcat(w1, Resume(2), parkFire + Resume(3));
    RunConcat(INIT, RetrackedRun(id, due), Resume(2) + (parkFire + Resume(3)));
    ForeignWin(id, due, later);
  }

  lemma ForeignWin(id: ExecutionId, due: int, later: int)
    ensures !OwnWaits(ThirdWait(id, due, later, Owning))
  {
    var w := ThirdWait(id, due, later, Owning);
    assert w.wins[2].attempt == 3 && !OwnWait(w.attempts[3], w.wins[2]);
  }

  /** Waiting until `later`, both timers still set. */
  function ParkedThird(id: ExecutionId, due: int, later: int): World {
    Overlapping(id, due, Ended(Parked)).(
      rows := map[id := Row(Waiting, [WAIT_INDEFINITELY, due, later], 0)], wins := [Win(id, 1, 1), Win(id, 2, 2)])
  }

  lemma StaleTimerFires(id: ExecutionId, due: int, later: int)
    ensures Next(ParkedThird(id, due, later), Fire(0)) == ThirdWait(id, due, later, Loading)
  {
    var w := ParkedThird(id, due, later);
    assert ClearTimer(w.timers, 0) == [Timer(0, id, 2, 70000, false), Timer(0, id, 2, 10000, true)];
    assert w.tracked - {(0, id)} == map[];
  }

  lemma SecondChildResumes(id: ExecutionId, due: int, later: int)
    ensures Next(Next(Overlapping(id, due, Loading), Load(2)), Reserve(2)) == Overlapping(id, due, Claiming)
    ensures Next(Next(Overlapping(id, due, Claiming), Claim(2)), Park(2, later)) == ParkedThird(id, due, later)
  {
    assert Next(Overlapping(id, due, Loading), Load(2)) == Overlapping(id, due, Reserving);
    assert Next(Overlapping(id, due, Reserving), Reserve(2)) == Overlapping(id, due, Claiming);
    SecondChildParks(id, due, later);
  }

  lemma SecondChildParks(id: ExecutionId, due: int, later: int)
    ensures Next(Next(Overlapping(id, due, Claiming), Claim(2)), Park(2, later)) ==
            ParkedThird(id, due, later)
  {
    var w := Overlapping(id, due, Claiming);
    var w1 := Next(w, Claim(2));
    assert w1.rows[id] == Row(Running, [WAIT_INDEFINITELY, due], 0);
    assert w1.wins == [Win(id, 1, 1), Win(id, 2, 2)];
    assert ToWaiting(w1.rows[id], later) == Row(Waiting, [WAIT_INDEFINITELY, due, later], 0);
    assert w1.attempts == Firsts(id) + [Attempt(0, id, FromChild, Owning, 1)];
    assert Next(w1, Park(2, later)).attempts == Firsts(id) + [Attempt(0, id, FromChild, Ended(Parked), 1)];
  }

  lemma StaleTimerWins(id: ExecutionId, due: int, later: int)
    ensures Next(Next(Next(ThirdWait(id, due, later, Loading), Load(3)), Reserve(3)), Claim(3)) ==
            ThirdWait(id, due, later, Owning)
  {
    assert Next(ThirdWait(id, due, later, Loading), Load(3)) == ThirdWait(id, due, later, Reserving);
    assert Next(ThirdWait(id, due, later, Reserving), Reserve(3)) == ThirdWait(id, due, later, Claiming);
    assert Next(ThirdWait(id, due, later, Claiming), Claim(3)) == ThirdWait(id, due, later, Owning);
  }

  // ---- What ends a timer ----

  /** A timer that is off stays off for good. */
  lemma {:induction false} DeadStaysDead(w: World, run: seq<Action>, t: nat)
    requires t < |w.timers| && !w.timers[t].live
    ensures t < |Run(w, run).timers| && Run(w, run).timers[t] == w.timers[t]
  {
    if run != [] {
      var front, a := run[..|run| - 1], run[|run| - 1];
      DeadStaysDead(w, front, t);
      if SetsTimer(Run(w, front), a) {
        TimerSet(Run(w, front), a);
        assert Next(Run(w, front), a).timers[..|Run(w, front).timers|][t] == Run(w, front).timers[t];
      } else {
        TimersOnlyClear(Run(w, front), a);
      }
    }
  }

  /** A live timer fires once: it is off then, the entry of its execution goes, and one attempt to resume that
      execution begins; a timer that is off does nothing. */
  lemma FiresOnce(w: World, t: nat)
    requires t < |w.timers|
    ensures var w', x := Next(w, Fire(t)), w.timers[t];
      if !x.live then w' == w
      else
        && w'.timers == w.timers[t := x.(live := false)] && Next(w', Fire(t)) == w'
        && w'.tracked == w.tracked - {(x.process, x.id)}
        && w'.attempts == w.attempts + [Attempt(x.process, x.id, FromTimer(x.epoch), Loading, 1)]
        && w'.rows == w.rows && w'.wins == w.wins
  {
    assert w.timers[t].live ==> !Next(w, Fire(t)).timers[t].live;
  }

  /** Stopping a waiting execution drops its entry and switches its timer off, so that none is left to resume it;
      all other entries and timers stay. */
  lemma StoppedHasNoTimer(w: World, p: ProcessId, id: ExecutionId)
    requires EntriesLive(w) && OneTimer(w) && (p, id) in w.tracked
    ensures var w' := Next(w, Untrack(p, id));
      && w'.tracked == w.tracked - {(p, id)}
      && (forall t: nat :: !LiveTimer(w', t, p, id))
      && |w'.timers| == |w.timers|
      && (forall t: nat :: t < |w.timers| && (w.timers[t].process != p || w.timers[t].id != id) ==>
            w'.timers[t] == w.timers[t])
  {
    assert LiveTimer(w, w.tracked[(p, id)], p, id);
    forall t: nat
      ensures !LiveTimer(Next(w, Untrack(p, id)), t, p, id)
    {
      assert LiveTimer(w, t, p, id) ==> t == w.tracked[(p, id)];
    }
  }

  /** A crash takes all timers, entries and open attempts of its process and nothing of the others. */
  lemma CrashTakesAll(w: World, p: ProcessId)
    ensures var w' := Next(w, Crash(p));
      && |w'.timers| == |w.timers| && |w'.attempts| == |w.attempts| && w'.rows == w.rows && w'.wins == w.wins
      && (forall t :: 0 <= t < |w.timers| ==>
            w'.timers[t] == if w.timers[t].process == p then w.timers[t].(live := false) else w.timers[t])
      && (forall k :: k in w'.tracked <==> k in w.tracked && k.0 != p)
      && (forall i :: 0 <= i < |w.attempts| ==>
            if w.attempts[i].process == p && !w.attempts[i].phase.Ended?
            then w'.attempts[i] == w.attempts[i].(phase := Ended(Crashed)) else w'.attempts[i] == w.attempts[i])
  {
    forall i | 0 <= i < |w.attempts|
      ensures Next(w, Crash(p)).attempts[i] == CrashAttempt(w.attempts[i], p)
    {
    }
  }

  // ---- Stopping the tracker leaves entries without timers ----

  /** Every entry's timer is set, for its own process and execution. */
  ghost predicate EntriesLive(w: World) {
    forall k :: k in w.tracked ==> LiveTimer(w, w.tracked[k], k.0, k.1)
  }

  ghost predicate TracksSome(w: World, process: ProcessId) {
    exists k :: k in w.tracked && k.0 == process
  }

  /** The only step that leaves an entry without its timer is stopping the tracking of a process that has entries. */
  lemma StepEntriesLive(w: World, a: Action)
    requires EntriesLive(w)
    ensures EntriesLive(Next(w, a)) <==> !(a.StopTracking? && TracksSome(w, a.process))
  {
    match a
    case StopTracking(p) => StopEntriesLive(w, p);
    case Crash(p) => CrashEntriesLive(w, p);
    case Untrack(p, id) => UntrackEntriesLive(w, p, id);
    case Track(p, id, epoch, asked, now) => TrackEntriesLive(w, a);
    case Fire(t) => ResumeEntriesLive(w, a);
    case ChildDone(p, id) => ResumeEntriesLive(w, a);
    case _ => OthersKeepTimers(w, a);
  }

  lemma StopEntriesLive(w: World, p: ProcessId)
    requires EntriesLive(w)
    ensures EntriesLive(Next(w, StopTracking(p))) <==> !TracksSome(w, p)
  {
    if TracksSome(w, p) {
      var k :| k in w.tracked && k.0 == p;
      assert w.tracked[k] in (set l | l in w.tracked && l.0 == p :: w.tracked[l]);
      assert !LiveTimer(Next(w, StopTracking(p)), w.tracked[k], k.0, k.1);
    } else {
      assert (set l | l in w.tracked && l.0 == p :: w.tracked[l]) == {};
    }
  }

  lemma TrackEntriesLive(w: World, a: Action)
    requires EntriesLive(w) && a.Track?
    ensures EntriesLive(Next(w, a))
  {
  }

  /** The entry of the execution that is resumed goes, so the timer that fired is nobody's. */
  lemma ResumeEntriesLive(w: World, a: Action)
    requires EntriesLive(w) && (a.Fire? || a.ChildDone?)
    ensures EntriesLive(Next(w, a))
  {
  }

  lemma OthersKeepTimers(w: World, a: Action)
    requires !a.Track? && !a.Untrack? && !a.StopTracking? && !a.Fire? && !a.ChildDone? && !a.Crash?
    ensures Next(w, a).timers == w.timers && Next(w, a).tracked == w.tracked
  {
  }

  lemma CrashEntriesLive(w: World, p: ProcessId)
    requires EntriesLive(w)
    ensures EntriesLive(Next(w, Crash(p)))
  {
    var w' := Next(w, Crash(p));
    forall k | k in w'.tracked
      ensures LiveTimer(w', w'.tracked[k], k.0, k.1)
    {
      assert LiveTimer(w, w.tracked[k], k.0, k.1);
    }
  }

  lemma UntrackEntriesLive(w: World, p: ProcessId, id: ExecutionId)
    requires EntriesLive(w)
    ensures EntriesLive(Next(w, Untrack(p, id)))
  {
    if (p, id) in w.tracked {
      assert LiveTimer(w, w.tracked[(p, id)], p, id);
      var w' := Next(w, Untrack(p, id));
      forall k | k in w'.tracked
        ensures LiveTimer(w', w'.tracked[k], k.0, k.1)
      {
        assert LiveTimer(w, w.tracked[k], k.0, k.1);
      }
    }
  }

  /** Every entry has its timer after every prefix of the run. */
  ghost predicate AlwaysEntriesLive(run: seq<Action>) {
    EntriesLive(Run(INIT, run)) && (run != [] ==> AlwaysEntriesLive(run[..|run| - 1]))
  }

  ghost predicate StopsOnlyIdle(run: seq<Action>) {
    run != [] ==>
      var front, a := run[..|run| - 1], run[|run| - 1];
      StopsOnlyIdle(front) && !(a.StopTracking? && TracksSome(Run(INIT, front), a.process))
  }

  /** Every entry keeps its timer exactly when tracking is stopped only in processes without entries. */
  lemma {:induction false} EntriesLiveExactly(run: seq<Action>)
    ensures AlwaysEntriesLive(run) <==> StopsOnlyIdle(run)
  {
    if run != [] {
      var front := run[..|run| - 1];
      EntriesLiveExactly(front);
      if AlwaysEntriesLive(front) {
        StepEntriesLive(Run(INIT, front), run[|run| - 1]);
      }
    }
  }

  /** An execution waits for a minute and is tracked; the tracking stops. */
  function StopRun(id: ExecutionId, due: int): seq<Action> {
    [Create(0, id), Park(0, due)] + [Track(0, id, 1, due - 60000, due - 60000), StopTracking(0)]
  }

  /** The entry stays and its timer is off. */
  lemma StopLeavesEntry(id: ExecutionId, due: int)
    ensures !EntriesLive(Run(INIT, StopRun(id, due)))
    ensures (0, id) in Run(INIT, StopRun(id, due)).tracked
  {
    var track := Track(0, id, 1, due - 60000, due - 60000);
    var w := Next(ParkedOnce(id, due), track);
    CreatePark(id, due);
    TrackParked(id, due);
    assert (0, id) in w.tracked && TracksSome(w, 0);
    StepEntriesLive(w, StopTracking(0));
    RunTwo(INIT, Create(0, id), Park(0, due));
    RunTwo(ParkedOnce(id, due), track, StopTracking(0));
    RunConcat(INIT, [Create(0, id), Park(0, due)], [track, StopTracking(0)]);
  }

  lemma TrackParked(id: ExecutionId, due: int)
    ensures Next(ParkedOnce(id, due), Track(0, id, 1, due - 60000, due - 60000)) ==
            ParkedOnce(id, due).(timers := [Timer(0, id, 1, 60000, true)], tracked := map[(0, id) := 0])
  {
  }

  /** The entry of `id` stays as it is through any polls of its process. */
  lemma {:induction false} KeptEntryBlocksPolls(w: World, process: ProcessId, id: ExecutionId, polls: seq<Action>)
    requires (process, id) in w.tracked && w.tracked[(process, id)] < |w.timers|
    requires forall a :: a in polls ==> a.Track? && a.process == process
    ensures var w' := Run(w, polls);
      && (process, id) in w'.tracked && w'.tracked[(process, id)] == w.tracked[(process, id)]
      && |w.timers| <= |w'.timers| && w'.timers[..|w.timers|] == w.timers
      && forall t :: |w.timers| <= t < |w'.timers| ==> w'.timers[t].id != id
  {
    if polls != [] {
      var front := polls[..|polls| - 1];
      assert polls[|polls| - 1] in polls && forall a :: a in front ==> a in polls;
      KeptEntryBlocksPolls(w, process, id, front);
    }
  }
}
