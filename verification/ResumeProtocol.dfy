/** Resuming waiting executions: any number of processes, timers, finished children, retries and crashes. */
module ResumeProtocol {
  import opened Wrappers
  import opened Executions

  type ProcessId = nat

  /** A database row. `waits` and `dropped` are history: the end of each wait the row entered, in milliseconds,
      and how often it left `Waiting` other than by a successful conditional update. */
  datatype Row = Row(status: Status, waits: seq<int>, dropped: nat)

  /** How often the row has entered `Waiting`; while it waits, this numbers the wait. */
  function Epoch(row: Row): nat {
    |row.waits|
  }

  /** What starts an attempt; a timer knows the wait it was set for. */
  datatype Origin = Fresh | FromTimer(epoch: nat) | FromChild

  datatype End = Swallowed | GaveUp | Parked | Finished | Crashed

  /** Where an attempt to run an execution stands; `Owning` from the moment it may run the workflow. */
  datatype Phase = Loading | Reserving | Claiming | Backoff | Owning | Ended(end: End)

  datatype Attempt = Attempt(process: ProcessId, id: ExecutionId, origin: Origin, phase: Phase, tries: nat)

  /** Set for the wait `epoch`; `delay` is the time from then to the end of that wait, negative when it is over. */
  datatype Timer = Timer(process: ProcessId, id: ExecutionId, epoch: nat, delay: int, live: bool)

  /** A conditional update that succeeded: which row, in which waiting epoch, by which attempt. */
  datatype Win = Win(id: ExecutionId, epoch: nat, attempt: nat)

  datatype World = World(
    rows: map<ExecutionId, Row>,
    attempts: seq<Attempt>,
    timers: seq<Timer>,
    tracked: map<(ProcessId, ExecutionId), nat>,
    wins: seq<Win>)

  const MAX_PARENT_RESUME_ATTEMPTS := 3

  /** A poll looks this far ahead, in milliseconds. */
  const POLL_AHEAD := 70000

  /** The end of a wait that only a child ends: the first instant of the year 3000. */
  const WAIT_INDEFINITELY := 32503680000000

  datatype Action =
    | Create(process: ProcessId, id: ExecutionId)
    | Track(process: ProcessId, id: ExecutionId, epoch: nat, asked: int, now: int)
    | Untrack(process: ProcessId, id: ExecutionId)
    | StopTracking(process: ProcessId)
    | Fire(timer: nat)
    | ChildDone(process: ProcessId, id: ExecutionId)
    | Load(attempt: nat)
    | Reserve(attempt: nat)
    | Claim(attempt: nat)
    | Fault(attempt: nat, retryable: bool)
    | Wake(attempt: nat)
    | MarkRunning(attempt: nat)
    | Park(attempt: nat, waitTill: int)
    | Finish(attempt: nat, status: Status)
    | Cancel(id: ExecutionId)
    | Crash(process: ProcessId)

  const INIT := World(map[], [], [], map[], [])

  // ---- The transitions ----

  /** A row whose status is overwritten otherwise than by parking, keeping its history. */
  function Write(row: Row, status: Status): Row {
    row.(status := status, dropped := row.dropped + One(row.status == Waiting))
  }

  function ToWaiting(row: Row, waitTill: int): Row {
    if row.status == Waiting then row else row.(status := Waiting, waits := row.waits + [waitTill])
  }

  function WriteRow(w: World, id: ExecutionId, status: Status): World {
    if id in w.rows then w.(rows := w.rows[id := Write(w.rows[id], status)]) else w
  }

  function ParkRow(w: World, id: ExecutionId, waitTill: int): World {
    if id in w.rows then w.(rows := w.rows[id := ToWaiting(w.rows[id], waitTill)]) else w
  }

  function Move(w: World, i: nat, phase: Phase): World
    requires i < |w.attempts|
  {
    w.(attempts := w.attempts[i := w.attempts[i].(phase := phase)])
  }

  predicate At(w: World, i: nat, phase: Phase) {
    i < |w.attempts| && w.attempts[i].phase == phase
  }

  predicate Final(status: Status) {
    status == Success || status == Error || status == Canceled
  }

  /** A poll asked at `asked` may return `id` in its wait `epoch`: that wait ends soon enough.
      The row may have been resumed since. */
  predicate Polled(w: World, id: ExecutionId, epoch: nat, asked: int) {
    id in w.rows && 1 <= epoch <= Epoch(w.rows[id]) && w.rows[id].waits[epoch - 1] <= asked + POLL_AHEAD
  }

  /** Starts resuming `id`: the tracking entry goes, but its timer is left as it is. */
  function StartResume(w: World, process: ProcessId, id: ExecutionId, origin: Origin): World {
    w.(tracked := w.tracked - {(process, id)},
       attempts := w.attempts + [Attempt(process, id, origin, Loading, 1)])
  }

  function ClearTimer(timers: seq<Timer>, t: nat): seq<Timer> {
    if t < |timers| then timers[t := timers[t].(live := false)] else timers
  }

  /** Switches off the timers `stopped` selects. */
  ghost function ClearTimers(timers: seq<Timer>, stopped: set<nat>): (r: seq<Timer>)
    ensures |r| == |timers|
    ensures forall t :: 0 <= t < |r| ==> r[t] == if t in stopped then timers[t].(live := false) else timers[t]
  {
    seq(|timers|, t requires 0 <= t < |timers| => if t in stopped then timers[t].(live := false) else timers[t])
  }

  /** Ends every open attempt of `process`. */
  ghost function CrashAttempts(attempts: seq<Attempt>, process: ProcessId): (r: seq<Attempt>)
    ensures |r| == |attempts|
    ensures forall i :: 0 <= i < |r| ==> r[i] == CrashAttempt(attempts[i], process)
  {
    if attempts == [] then [] else [CrashAttempt(attempts[0], process)] + CrashAttempts(attempts[1..], process)
  }

  function CrashAttempt(a: Attempt, process: ProcessId): Attempt {
    if a.process == process && !a.phase.Ended? then a.(phase := Ended(Crashed)) else a
  }

  /** The conditional update: it succeeds exactly when the row is waiting; otherwise the caller drops the attempt. */
  function ClaimRow(w: World, i: nat): World
    requires i < |w.attempts|
  {
    var id := w.attempts[i].id;
    if id in w.rows && w.rows[id].status == Waiting then
      Move(w, i, Owning).(
        rows := w.rows[id := w.rows[id].(status := Running)],
        wins := w.wins + [Win(id, Epoch(w.rows[id]), i)])
    else Move(w, i, Ended(Swallowed))
  }

  /** An error can stop the attempt: while it resumes, or once it owns the row but before the workflow runs. */
  predicate CanFail(w: World, i: nat) {
    At(w, i, Loading) || At(w, i, Reserving) || At(w, i, Claiming) || At(w, i, Owning)
  }

  /** Only a child's resume of its parent is retried, and not for ever. */
  predicate MayRetry(a: Attempt) {
    a.origin == FromChild && a.tries < MAX_PARENT_RESUME_ATTEMPTS
  }

  /** One atomic step; an action that cannot happen in `w` changes nothing. */
  ghost function Next(w: World, a: Action): World {
    match a
    case Create(p, id) =>
      if id in w.rows then w
      else w.(rows := w.rows[id := Row(New, [], 0)], attempts := w.attempts + [Attempt(p, id, Fresh, Owning, 1)])
    case Track(p, id, epoch, asked, now) =>
      if !Polled(w, id, epoch, asked) || (p, id) in w.tracked then w
      else
        var timer := Timer(p, id, epoch, w.rows[id].waits[epoch - 1] - now, true);
        w.(timers := w.timers + [timer], tracked := w.tracked[(p, id) := |w.timers|])
    case Untrack(p, id) =>
      if (p, id) !in w.tracked then w
      else w.(timers := ClearTimer(w.timers, w.tracked[(p, id)]), tracked := w.tracked - {(p, id)})
    case StopTracking(p) =>
      w.(timers := ClearTimers(w.timers, set k | k in w.tracked && k.0 == p :: w.tracked[k]))
    case Fire(t) =>
      if t >= |w.timers| || !w.timers[t].live then w
      else
        var timer := w.timers[t];
        StartResume(w.(timers := ClearTimer(w.timers, t)), timer.process, timer.id, FromTimer(timer.epoch))
    case ChildDone(p, id) => StartResume(w, p, id, FromChild)
    case Load(i) =>
      if !At(w, i, Loading) then w
      else if w.attempts[i].id in w.rows && w.rows[w.attempts[i].id].status != Success then Move(w, i, Reserving)
      else Move(w, i, Ended(GaveUp))
    case Reserve(i) => if At(w, i, Reserving) then Move(w, i, Claiming) else w
    case Claim(i) => if At(w, i, Claiming) then ClaimRow(w, i) else w
    case Fault(i, retryable) =>
      if !CanFail(w, i) then w
      else if retryable && MayRetry(w.attempts[i]) then Move(w, i, Backoff)
      else Move(w, i, Ended(GaveUp))
    case Wake(i) =>
      if At(w, i, Backoff)
      then w.(attempts := w.attempts[i := w.attempts[i].(phase := Loading, tries := w.attempts[i].tries + 1)]) else w
    case MarkRunning(i) => if At(w, i, Owning) then WriteRow(w, w.attempts[i].id, Running) else w
    case Park(i, waitTill) =>
      if At(w, i, Owning) then ParkRow(Move(w, i, Ended(Parked)), w.attempts[i].id, waitTill) else w
    case Finish(i, status) =>
      if At(w, i, Owning) && Final(status)
      then WriteRow(Move(w, i, Ended(Finished)), w.attempts[i].id, status) else w
    case Cancel(id) => WriteRow(w, id, Canceled)
    case Crash(p) =>
      w.(attempts := CrashAttempts(w.attempts, p),
         timers := ClearTimers(w.timers, set t: nat | t < |w.timers| && w.timers[t].process == p),
         tracked := map k | k in w.tracked && k.0 != p :: w.tracked[k])
  }

  ghost function Run(w: World, run: seq<Action>): World {
    if run == [] then w else Next(Run(w, run[..|run| - 1]), run[|run| - 1])
  }

  // ---- Who changes a row, and how an attempt gets to its claim ----

  /** The step is taken by an attempt that owns `id`. */
  predicate ByOwner(w: World, i: nat, id: ExecutionId) {
    At(w, i, Owning) && w.attempts[i].id == id
  }

  /** Every way a row comes to be and changes its status; any other step leaves it as it is. */
  lemma RowStep(w: World, a: Action, id: ExecutionId)
    ensures var w' := Next(w, a);
      && (id !in w.rows ==>
            (id in w'.rows <==> a.Create? && a.id == id) && (id in w'.rows ==> w'.rows[id] == Row(New, [], 0)))
      && (id in w.rows ==>
            && id in w'.rows
            && w'.rows[id].status ==
               (match a
                case Claim(i) =>
                  if At(w, i, Claiming) && w.attempts[i].id == id && w.rows[id].status == Waiting then Running
                  else w.rows[id].status
                case MarkRunning(i) => if ByOwner(w, i, id) then Running else w.rows[id].status
                case Park(i, _) => if ByOwner(w, i, id) then Waiting else w.rows[id].status
                case Finish(i, end) =>
                  if ByOwner(w, i, id) && end in {Status.Success, Status.Error, Status.Canceled} then end
                  else w.rows[id].status
                case Cancel(x) => if x == id then Status.Canceled else w.rows[id].status
                case _ => w.rows[id].status))
  {
    if !WritesRow(a) {
      OtherRows(w, a);
    }
  }

  /** The end of a wait is the one its owner parks with; nothing else begins a wait. */
  lemma WaitStep(w: World, a: Action, id: ExecutionId)
    requires id in w.rows
    ensures id in Next(w, a).rows
    ensures Next(w, a).rows[id].waits ==
            if a.Park? && ByOwner(w, a.attempt, id) && w.rows[id].status != Waiting
            then w.rows[id].waits + [a.waitTill] else w.rows[id].waits
  {
    if !WritesRow(a) {
      OtherRows(w, a);
    }
  }

  /** An attempt goes on from loading exactly when the row exists and has not succeeded, and then through its slot
      to the claim. */
  lemma LoadThenReserve(w: World, i: nat)
    requires i < |w.attempts|
    ensures var w', id := Next(w, Load(i)), w.attempts[i].id;
      At(w, i, Loading) ==>
        w' == Move(w, i, if id in w.rows && w.rows[id].status != Status.Success then Reserving else Ended(GaveUp))
    ensures At(w, i, Reserving) ==> Next(w, Reserve(i)) == Move(w, i, Claiming)
    ensures !At(w, i, Loading) ==> Next(w, Load(i)) == w
    ensures !At(w, i, Reserving) ==> Next(w, Reserve(i)) == w
  {
  }

  // ---- At most one owner, and none while the row waits ----

  ghost predicate Exclusive(w: World) {
    && (forall i, j :: 0 <= i < j < |w.attempts| && w.attempts[i].phase == Owning && w.attempts[j].phase == Owning ==>
          w.attempts[i].id != w.attempts[j].id)
    && (forall i :: 0 <= i < |w.attempts| && w.attempts[i].phase == Owning ==>
          w.attempts[i].id in w.rows && w.rows[w.attempts[i].id].status != Waiting)
  }

  /** Where the owners after a step come from. */
  lemma NewOwners(w: World, a: Action, i: nat)
    requires i < |Next(w, a).attempts| && Next(w, a).attempts[i].phase == Owning
    ensures var w' := Next(w, a);
      || (i < |w.attempts| && w.attempts[i].phase == Owning && w'.attempts[i].id == w.attempts[i].id &&
          !(a.Park? && a.attempt == i))
      || (i == |w.attempts| && a.Create? && a.id !in w.rows && w'.attempts[i].id == a.id)
      || (i < |w.attempts| && a == Claim(i) && w'.attempts[i].id == w.attempts[i].id &&
          w.attempts[i].id in w.rows && w.rows[w.attempts[i].id].status == Waiting)
  {
  }

  /** A row is waiting after a step only if it was, or its owner has just parked. */
  lemma NewWaits(w: World, a: Action, id: ExecutionId)
    requires id in Next(w, a).rows && Next(w, a).rows[id].status == Waiting
    ensures
      || (id in w.rows && w.rows[id].status == Waiting &&
          (a.Claim? && At(w, a.attempt, Claiming) ==> w.attempts[a.attempt].id != id))
      || (a.Park? && At(w, a.attempt, Owning) && w.attempts[a.attempt].id == id)
  {
  }

  lemma RowsKept(w: World, a: Action, id: ExecutionId)
    requires id in w.rows
    ensures id in Next(w, a).rows
  {
  }

  lemma StepExclusive(w: World, a: Action)
    requires Exclusive(w)
    ensures Exclusive(Next(w, a))
  {
    var w' := Next(w, a);
    forall i, j | 0 <= i < j < |w'.attempts| && w'.attempts[i].phase == Owning && w'.attempts[j].phase == Owning
      ensures w'.attempts[i].id != w'.attempts[j].id
    {
      NewOwners(w, a, i);
      NewOwners(w, a, j);
    }
    forall i | 0 <= i < |w'.attempts| && w'.attempts[i].phase == Owning
      ensures w'.attempts[i].id in w'.rows && w'.rows[w'.attempts[i].id].status != Waiting
    {
      NewOwners(w, a, i);
      if w'.attempts[i].id in w.rows {
        RowsKept(w, a, w'.attempts[i].id);
      }
      if w'.attempts[i].id in w'.rows && w'.rows[w'.attempts[i].id].status == Waiting {
        NewWaits(w, a, w'.attempts[i].id);
      }
    }
  }

  /** Across all processes, at every moment of every run, an execution is run by at most one attempt. */
  lemma {:induction false} SingleOwner(run: seq<Action>)
    ensures Exclusive(Run(INIT, run))
  {
    if run != [] {
      SingleOwner(run[..|run| - 1]);
      StepExclusive(Run(INIT, run[..|run| - 1]), run[|run| - 1]);
    }
  }

  // ---- At most one win per waiting epoch ----

  ghost predicate WinsSound(w: World) {
    && (forall k :: 0 <= k < |w.wins| ==> WinBounded(w, w.wins[k]))
    && (forall k, l :: 0 <= k < l < |w.wins| && w.wins[k].id == w.wins[l].id ==> w.wins[k].epoch < w.wins[l].epoch)
  }

  /** A recorded win lies in an epoch the row has entered, and not in the one it is waiting in. */
  ghost predicate WinBounded(w: World, win: Win) {
    && win.id in w.rows
    && 1 <= win.epoch <= Epoch(w.rows[win.id])
    && (w.rows[win.id].status == Waiting ==> win.epoch < Epoch(w.rows[win.id]))
  }

  ghost predicate RowsSound(w: World) {
    forall id :: id in w.rows && w.rows[id].status == Waiting ==> w.rows[id].waits != []
  }

  /** Rows stay, epochs never fall, and a row that starts waiting enters a new epoch. */
  ghost predicate RowsGrow(w: World, w': World) {
    forall id :: id in w.rows ==>
      && id in w'.rows
      && Epoch(w'.rows[id]) >=
         Epoch(w.rows[id]) + One(w.rows[id].status != Waiting && w'.rows[id].status == Waiting)
  }

  lemma GrowKeepsWins(w: World, w': World)
    requires WinsSound(w) && RowsGrow(w, w') && w'.wins == w.wins
    ensures WinsSound(w')
  {
    forall k | 0 <= k < |w'.wins|
      ensures WinBounded(w', w'.wins[k])
    {
      assert WinBounded(w, w.wins[k]);
    }
  }

  /** The steps that write rows which exist. */
  predicate WritesRow(a: Action) {
    a.Claim? || a.MarkRunning? || a.Park? || a.Finish? || a.Cancel?
  }

  /** All other steps leave rows and wins, except that a new row may come. */
  lemma OtherRows(w: World, a: Action)
    requires !WritesRow(a)
    ensures Next(w, a).wins == w.wins
    ensures Next(w, a).rows == w.rows ||
            (a.Create? && a.id !in w.rows && Next(w, a).rows == w.rows[a.id := Row(New, [], 0)])
  {
  }

  lemma StepRowsGrow(w: World, a: Action)
    requires RowsSound(w)
    ensures RowsGrow(w, Next(w, a)) && RowsSound(Next(w, a))
    ensures !a.Claim? ==> Next(w, a).wins == w.wins
  {
    match a
    case Claim(i) => ClaimGrows(w, i);
    case MarkRunning(i) =>
      if At(w, i, Owning) {
        WriteGrows(w, w, w.attempts[i].id, Running);
      }
    case Park(i, waitTill) =>
      if At(w, i, Owning) {
        ParkGrows(w, Move(w, i, Ended(Parked)), w.attempts[i].id, waitTill);
      }
    case Finish(i, status) =>
      if At(w, i, Owning) && Final(status) {
        WriteGrows(w, Move(w, i, Ended(Finished)), w.attempts[i].id, status);
      }
    case Cancel(id) => WriteGrows(w, w, id, Canceled);
    case _ => OtherRows(w, a);
  }

  lemma WriteGrows(w: World, w1: World, id: ExecutionId, status: Status)
    requires RowsSound(w) && w1.rows == w.rows && w1.wins == w.wins && status != Waiting
    ensures var w' := WriteRow(w1, id, status); RowsGrow(w, w') && RowsSound(w') && w'.wins == w.wins
  {
  }

  lemma ParkGrows(w: World, w1: World, id: ExecutionId, waitTill: int)
    requires RowsSound(w) && w1.rows == w.rows && w1.wins == w.wins
    ensures var w' := ParkRow(w1, id, waitTill); RowsGrow(w, w') && RowsSound(w') && w'.wins == w.wins
  {
  }

  lemma ClaimGrows(w: World, i: nat)
    requires RowsSound(w)
    ensures RowsGrow(w, Next(w, Claim(i))) && RowsSound(Next(w, Claim(i)))
  {
  }

  lemma ClaimKeepsWins(w: World, i: nat)
    requires WinsSound(w) && RowsSound(w) && i < |w.attempts|
    ensures WinsSound(ClaimRow(w, i))
  {
    var w', id := ClaimRow(w, i), w.attempts[i].id;
    if id in w.rows && w.rows[id].status == Waiting {
      forall k | 0 <= k < |w'.wins|
        ensures WinBounded(w', w'.wins[k])
      {
        assert k < |w.wins| ==> WinBounded(w, w.wins[k]);
      }
      forall k, l | 0 <= k < l < |w'.wins| && w'.wins[k].id == w'.wins[l].id
        ensures w'.wins[k].epoch < w'.wins[l].epoch
      {
        assert WinBounded(w, w.wins[k]);
      }
    } else {
      GrowKeepsWins(w, w');
    }
  }

  lemma StepWinsSound(w: World, a: Action)
    requires WinsSound(w) && RowsSound(w)
    ensures WinsSound(Next(w, a)) && RowsSound(Next(w, a))
  {
    StepRowsGrow(w, a);
    if a.Claim? && At(w, a.attempt, Claiming) {
      ClaimKeepsWins(w, a.attempt);
    } else {
      GrowKeepsWins(w, Next(w, a));
    }
  }

  /** No two resumes of an execution succeed in the same waiting epoch. */
  lemma {:induction false} AtMostOneResumePerWait(run: seq<Action>)
    ensures WinsSound(Run(INIT, run)) && RowsSound(Run(INIT, run))
  {
    if run != [] {
      AtMostOneResumePerWait(run[..|run| - 1]);
      StepWinsSound(Run(INIT, run[..|run| - 1]), run[|run| - 1]);
    }
  }

  // ---- Counting resumes against epochs ----

  ghost function WinsOf(w: World, id: ExecutionId): nat {
    Count(w.wins, (win: Win) => win.id == id)
  }

  ghost predicate Balanced(w: World, id: ExecutionId) {
    if id in w.rows
    then WinsOf(w, id) + w.rows[id].dropped + One(w.rows[id].status == Waiting) == Epoch(w.rows[id])
    else WinsOf(w, id) == 0
  }

  lemma StepBalanced(w: World, a: Action, id: ExecutionId)
    requires Balanced(w, id)
    ensures Balanced(Next(w, a), id)
  {
    if a.Claim? {
      ClaimBalanced(w, a.attempt, id);
    } else if WritesRow(a) {
      WriteBalanced(w, a, id);
    } else {
      OtherRows(w, a);
    }
  }

  lemma WriteBalanced(w: World, a: Action, id: ExecutionId)
    requires Balanced(w, id) && WritesRow(a) && !a.Claim?
    ensures Balanced(Next(w, a), id)
  {
  }

  lemma ClaimBalanced(w: World, i: nat, id: ExecutionId)
    requires Balanced(w, id)
    ensures Balanced(Next(w, Claim(i)), id)
  {
    if At(w, i, Claiming) {
      var claimed := w.attempts[i].id;
      if claimed in w.rows && w.rows[claimed].status == Waiting {
        CountAppend(w.wins, Win(claimed, Epoch(w.rows[claimed]), i), (win: Win) => win.id == id);
      }
    }
  }

  /** Successful resumes, waits left otherwise and the present wait together are exactly the waits entered. */
  lemma {:induction false} ResumesBalanceWaits(run: seq<Action>, id: ExecutionId)
    ensures Balanced(Run(INIT, run), id)
  {
    if run != [] {
      ResumesBalanceWaits(run[..|run| - 1], id);
      StepBalanced(Run(INIT, run[..|run| - 1]), run[|run| - 1], id);
    }
  }

  // ---- Races ----

  ghost function Claims(racers: seq<nat>): seq<Action> {
    if racers == [] then [] else Claims(racers[..|racers| - 1]) + [Claim(racers[|racers| - 1])]
  }

  /** The first racer has won the row in `w'`, every other racer is dropped, and nothing else differs from `w`. */
  ghost predicate FirstWins(w: World, w': World, id: ExecutionId, racers: seq<nat>)
    requires racers != [] && id in w.rows
  {
    && |w'.attempts| == |w.attempts|
    && At(w', racers[0], Owning)
    && (forall k :: 0 < k < |racers| ==> At(w', racers[k], Ended(Swallowed)))
    && (forall i :: 0 <= i < |w.attempts| && i !in racers ==> w'.attempts[i] == w.attempts[i])
    && w'.rows == w.rows[id := w.rows[id].(status := Running)]
    && w'.wins == w.wins + [Win(id, Epoch(w.rows[id]), racers[0])]
    && w'.timers == w.timers && w'.tracked == w.tracked
  }

  /** Different attempts, each about to claim the row `id`. */
  ghost predicate Racing(w: World, id: ExecutionId, racers: seq<nat>) {
    && (forall r :: r in racers ==> At(w, r, Claiming) && w.attempts[r].id == id)
    && (forall k, l :: 0 <= k < l < |racers| ==> racers[k] != racers[l])
  }

  /** Of any number of attempts about to claim one waiting row, in any order, the first wins
      and all others are dropped. */
  lemma {:induction false} FirstClaimWins(w: World, id: ExecutionId, racers: seq<nat>)
    requires racers != [] && id in w.rows && w.rows[id].status == Waiting && Racing(w, id, racers)
    ensures FirstWins(w, Run(w, Claims(racers)), id, racers)
  {
    var n := |racers| - 1;
    var front, last := racers[..n], racers[n];
    RunClaims(w, front, last);
    RacersSplit(w, id, racers);
    assert racers == front + [last];
    if front == [] {
      WinnerClaims(w, id, last);
    } else {
      FirstClaimWins(w, id, front);
      LoserDropped(w, Run(w, Claims(front)), id, front, last);
    }
  }

  lemma RunClaims(w: World, front: seq<nat>, last: nat)
    ensures Run(w, Claims(front + [last])) == Next(Run(w, Claims(front)), Claim(last))
  {
    var racers := front + [last];
    assert racers[..|racers| - 1] == front;
    assert Claims(racers)[..|Claims(racers)| - 1] == Claims(front);
  }

  lemma RacersSplit(w: World, id: ExecutionId, racers: seq<nat>)
    requires racers != [] && Racing(w, id, racers)
    ensures var n := |racers| - 1;
      && Racing(w, id, racers[..n]) && racers[n] !in racers[..n]
      && At(w, racers[n], Claiming) && w.attempts[racers[n]].id == id
  {
    assert racers[|racers| - 1] in racers;
    assert forall r :: r in racers[..|racers| - 1] ==> r in racers;
  }

  lemma WinnerClaims(w: World, id: ExecutionId, first: nat)
    requires id in w.rows && w.rows[id].status == Waiting && At(w, first, Claiming) && w.attempts[first].id == id
    ensures FirstWins(w, Next(w, Claim(first)), id, [first])
  {
  }

  lemma LoserDropped(w: World, w1: World, id: ExecutionId, front: seq<nat>, last: nat)
    requires front != [] && id in w.rows && FirstWins(w, w1, id, front)
    requires last !in front && At(w, last, Claiming) && w.attempts[last].id == id
    ensures FirstWins(w, Next(w1, Claim(last)), id, front + [last])
  {
    assert w1.attempts[last] == w.attempts[last];
    assert Next(w1, Claim(last)) == Move(w1, last, Ended(Swallowed));
    assert forall k :: 0 <= k < |front| ==> front[k] in front;
  }

  /** An attempt that has ended, by losing or otherwise, never acts again. */
  lemma {:induction false} EndedStaysEnded(w: World, run: seq<Action>, i: nat)
    requires i < |w.attempts| && w.attempts[i].phase.Ended?
    ensures i < |Run(w, run).attempts| && Run(w, run).attempts[i] == w.attempts[i]
  {
    if run != [] {
      EndedStaysEnded(w, run[..|run| - 1], i);
      StepKeepsEnded(Run(w, run[..|run| - 1]), run[|run| - 1], i);
    }
  }

  lemma StepKeepsEnded(w: World, a: Action, i: nat)
    requires i < |w.attempts| && w.attempts[i].phase.Ended?
    ensures i < |Next(w, a).attempts| && Next(w, a).attempts[i] == w.attempts[i]
  {
  }

  // ---- Retries ----

  /** A child's resume of its parent is tried at most three times, a timer's once. */
  predicate TriesOk(a: Attempt) {
    && 1 <= a.tries <= (if a.origin == FromChild then MAX_PARENT_RESUME_ATTEMPTS else 1)
    && (a.phase == Backoff ==> MayRetry(a))
  }

  ghost predicate TriesBounded(w: World) {
    forall i :: 0 <= i < |w.attempts| ==> TriesOk(w.attempts[i])
  }

  lemma {:induction false} RetriesBounded(run: seq<Action>)
    ensures TriesBounded(Run(INIT, run))
  {
    if run != [] {
      RetriesBounded(run[..|run| - 1]);
      StepTriesBounded(Run(INIT, run[..|run| - 1]), run[|run| - 1]);
    }
  }

  lemma StepTriesBounded(w: World, a: Action)
    requires TriesBounded(w)
    ensures TriesBounded(Next(w, a))
  {
    forall i | 0 <= i < |Next(w, a).attempts|
      ensures TriesOk(Next(w, a).attempts[i])
    {
      if i < |w.attempts| {
        AttemptStep(w, a, i);
      } else {
        NewAttempt(w, a);
      }
    }
  }

  /** What one step can make of an attempt: it keeps its process, execution and origin; it starts waiting for a retry
      exactly after an error worth retrying with tries left, and is tried again only out of that wait. */
  lemma AttemptStep(w: World, a: Action, i: nat)
    requires i < |w.attempts|
    ensures i < |Next(w, a).attempts|
    ensures var x, x' := w.attempts[i], Next(w, a).attempts[i];
      && x'.process == x.process && x'.id == x.id && x'.origin == x.origin
      && (x.phase != Backoff ==>
            (x'.phase == Backoff <==> a == Fault(i, true) && CanFail(w, i) && MayRetry(x)))
      && (x'.tries != x.tries <==> a == Wake(i) && x.phase == Backoff)
      && (x'.tries != x.tries ==> x'.tries == x.tries + 1 && x'.phase == Loading)
  {
    if a.Load? || a.Reserve? || a.Claim? || a.Park? || a.Finish? {
      MoveStep(w, a, i);
    } else if a.Fault? || a.Wake? {
      RetryStep(w, a, i);
    } else if a.Crash? {
      assert Next(w, a).attempts[i] == CrashAttempt(w.attempts[i], a.process);
    } else {
      AttemptsKept(w, a, i);
    }
  }

  /** What may change when an attempt moves on without waiting for a retry. */
  lemma MoveStep(w: World, a: Action, i: nat)
    requires i < |w.attempts| && (a.Load? || a.Reserve? || a.Claim? || a.Park? || a.Finish?)
    ensures |Next(w, a).attempts| == |w.attempts|
    ensures var x, x' := w.attempts[i], Next(w, a).attempts[i];
      x' == x || (x' == x.(phase := x'.phase) && x.phase != Backoff && x'.phase != Backoff)
  {
  }

  lemma RetryStep(w: World, a: Action, i: nat)
    requires i < |w.attempts| && (a.Fault? || a.Wake?)
    ensures |Next(w, a).attempts| == |w.attempts|
    ensures var x, x' := w.attempts[i], Next(w, a).attempts[i];
      if a == Wake(i) && x.phase == Backoff then x' == x.(phase := Loading, tries := x.tries + 1)
      else if a.Fault? && a.attempt == i && CanFail(w, i)
      then x' == x.(phase := if a.retryable && MayRetry(x) then Backoff else Ended(GaveUp))
      else x' == x
  {
  }

  lemma AttemptsKept(w: World, a: Action, i: nat)
    requires i < |w.attempts|
    requires a.Create? || a.Track? || a.Untrack? || a.StopTracking? || a.Fire? || a.ChildDone? || a.MarkRunning? ||
             a.Cancel?
    ensures i < |Next(w, a).attempts| && Next(w, a).attempts[i] == w.attempts[i]
  {
  }

  /** An error worth retrying starts another try exactly for a child's first and second try; all others give up. */
  lemma RetriedTwice(w: World, i: nat, retryable: bool)
    requires i < |w.attempts| && w.attempts[i].phase in {Loading, Reserving, Claiming, Owning}
    ensures var x := w.attempts[i];
      Next(w, Fault(i, retryable)) ==
      Move(w, i, if retryable && x.origin == FromChild && x.tries < 3 then Backoff else Ended(GaveUp))
  {
  }

  lemma NewAttempt(w: World, a: Action)
    ensures |w.attempts| <= |Next(w, a).attempts| <= |w.attempts| + 1
    ensures |w.attempts| < |Next(w, a).attempts| ==>
      var x := Next(w, a).attempts[|w.attempts|];
      x.tries == 1 && (x.phase == Loading || (x.phase == Owning && x.origin == Fresh && a.Create?))
  {
  }

  // ---- Running rows and their owners ----

  predicate Owns(w: World, i: nat, id: ExecutionId) {
    At(w, i, Owning) && w.attempts[i].id == id
  }

  ghost predicate HasOwner(w: World, id: ExecutionId) {
    exists i: nat :: Owns(w, i, id)
  }

  predicate IsRunning(w: World, id: ExecutionId) {
    id in w.rows && w.rows[id].status == Running
  }

  /** Every row marked as running is run by some attempt. */
  ghost predicate RunningOwned(w: World) {
    forall id :: IsRunning(w, id) ==> HasOwner(w, id)
  }

  /** An error stops the owner of a running row before the workflow runs, or its process crashes. */
  ghost predicate Orphans(w: World, a: Action) {
    || (a.Fault? && At(w, a.attempt, Owning) && IsRunning(w, w.attempts[a.attempt].id))
    || (a.Crash? && exists i: nat :: OwnedBy(w, i, a.process))
  }

  predicate OwnedBy(w: World, i: nat, process: ProcessId) {
    At(w, i, Owning) && w.attempts[i].process == process && IsRunning(w, w.attempts[i].id)
  }

  lemma StepRunningOwned(w: World, a: Action)
    requires Exclusive(w) && RunningOwned(w)
    ensures RunningOwned(Next(w, a)) <==> !Orphans(w, a)
  {
    if a.Fault? && At(w, a.attempt, Owning) {
      FaultOrphans(w, a);
    } else if a.Crash? {
      CrashOrphans(w, a.process);
    } else {
      forall id | IsRunning(Next(w, a), id)
        ensures HasOwner(Next(w, a), id)
      {
        OwnerKept(w, a, id);
      }
    }
  }

  lemma OwnerOf(w: World, id: ExecutionId) returns (i: nat)
    requires RunningOwned(w) && IsRunning(w, id)
    ensures Owns(w, i, id)
  {
    assert HasOwner(w, id);
    i :| Owns(w, i, id);
  }

  lemma FaultOrphans(w: World, a: Action)
    requires Exclusive(w) && RunningOwned(w) && a.Fault? && At(w, a.attempt, Owning)
    ensures RunningOwned(Next(w, a)) <==> !Orphans(w, a)
  {
    var w', lost := Next(w, a), w.attempts[a.attempt].id;
    assert w'.rows == w.rows;
    forall i: nat, id | Owns(w', i, id)
      ensures Owns(w, i, id) && id != lost
    {
      assert i != a.attempt && w'.attempts[i] == w.attempts[i];
    }
    if IsRunning(w, lost) {
      assert IsRunning(w', lost) && !HasOwner(w', lost);
    } else {
      forall id | IsRunning(w', id)
        ensures HasOwner(w', id)
      {
        var i := OwnerOf(w, id);
        assert Owns(w', i, id);
      }
    }
  }

  lemma CrashOrphans(w: World, p: ProcessId)
    requires Exclusive(w) && RunningOwned(w)
    ensures RunningOwned(Next(w, Crash(p))) <==> !Orphans(w, Crash(p))
  {
    var w' := Next(w, Crash(p));
    assert w'.rows == w.rows;
    if i: nat :| OwnedBy(w, i, p) {
      CrashLoses(w, p, i);
    } else {
      forall id | IsRunning(w', id)
        ensures HasOwner(w', id)
      {
        var i := OwnerOf(w, id);
        assert !OwnedBy(w, i, p);
        CrashSpares(w, p, i);
        assert Owns(w', i, id);
      }
    }
  }

  /** The only owner of a row goes with its process. */
  lemma CrashLoses(w: World, p: ProcessId, i: nat)
    requires Exclusive(w) && OwnedBy(w, i, p)
    ensures var w', id := Next(w, Crash(p)), w.attempts[i].id; IsRunning(w', id) && !HasOwner(w', id)
  {
    var w', id := Next(w, Crash(p)), w.attempts[i].id;
    forall j: nat
      ensures !Owns(w', j, id)
    {
      if j < |w.attempts| {
        assert w'.attempts[j] == CrashAttempt(w.attempts[j], p);
        assert j < i || j == i || i < j;
      }
    }
  }

  lemma CrashSpares(w: World, p: ProcessId, i: nat)
    requires i < |w.attempts| && w.attempts[i].process != p
    ensures i < |Next(w, Crash(p)).attempts| && Next(w, Crash(p)).attempts[i] == w.attempts[i]
  {
  }

  /** Any other step that leaves a row running leaves or gives it an owner. */
  lemma OwnerKept(w: World, a: Action, id: ExecutionId)
    requires Exclusive(w) && RunningOwned(w) && IsRunning(Next(w, a), id)
    requires !a.Crash? && !(a.Fault? && At(w, a.attempt, Owning))
    ensures HasOwner(Next(w, a), id)
  {
    var w' := Next(w, a);
    if a.Claim? && At(w, a.attempt, Claiming) && w.attempts[a.attempt].id == id && !IsRunning(w, id) {
      assert Owns(w', a.attempt, id);
    } else if a.MarkRunning? && Owns(w, a.attempt, id) {
      assert Owns(w', a.attempt, id);
    } else {
      RunningBefore(w, a, id);
      var i := OwnerOf(w, id);
      OwnerStays(w, a, i, id);
    }
  }

  lemma RunningBefore(w: World, a: Action, id: ExecutionId)
    requires IsRunning(Next(w, a), id)
    requires !(a.Claim? && At(w, a.attempt, Claiming) && w.attempts[a.attempt].id == id && !IsRunning(w, id))
    requires !(a.MarkRunning? && Owns(w, a.attempt, id))
    ensures IsRunning(w, id)
  {
  }

  lemma OwnerStays(w: World, a: Action, i: nat, id: ExecutionId)
    requires Owns(w, i, id) && IsRunning(Next(w, a), id)
    requires !a.Crash? && !(a.Fault? && At(w, a.attempt, Owning))
    ensures Owns(Next(w, a), i, id)
  {
  }

  /** Every running row has an owner after every prefix of the run. */
  ghost predicate AlwaysOwned(run: seq<Action>) {
    RunningOwned(Run(INIT, run)) && (run != [] ==> AlwaysOwned(run[..|run| - 1]))
  }

  ghost predicate NeverOrphans(run: seq<Action>) {
    run != [] ==> NeverOrphans(run[..|run| - 1]) && !Orphans(Run(INIT, run[..|run| - 1]), run[|run| - 1])
  }

  /** Rows marked as running are run, exactly as long as no owner is stopped between its claim and its workflow
      and none crashes. */
  lemma {:induction false} RunningOwnedExactly(run: seq<Action>)
    ensures AlwaysOwned(run) <==> NeverOrphans(run)
  {
    if run != [] {
      var front := run[..|run| - 1];
      RunningOwnedExactly(front);
      SingleOwner(front);
      if AlwaysOwned(front) {
        StepRunningOwned(Run(INIT, front), run[|run| - 1]);
      }
    }
  }

  /** A running row without an owner stays so until it is cancelled: every later attempt is dropped. */
  lemma {:induction false} OrphanStays(w: World, run: seq<Action>, id: ExecutionId)
    requires IsRunning(w, id) && !HasOwner(w, id) && Cancel(id) !in run
    ensures var w' := Run(w, run); id in w'.rows && w'.rows[id] == w.rows[id] && !HasOwner(w', id)
  {
    if run != [] {
      var front, a := run[..|run| - 1], run[|run| - 1];
      assert a in run && forall x :: x in front ==> x in run;
      OrphanStays(w, front, id);
      OrphanStep(Run(w, front), a, id);
    }
  }

  lemma OrphanStep(w: World, a: Action, id: ExecutionId)
    requires IsRunning(w, id) && !HasOwner(w, id) && a != Cancel(id)
    ensures var w' := Next(w, a); id in w'.rows && w'.rows[id] == w.rows[id] && !HasOwner(w', id)
  {
    var w' := Next(w, a);
    forall i: nat
      ensures !Owns(w', i, id)
    {
      assert !Owns(w, i, id);
      if i < |w'.attempts| && w'.attempts[i].phase == Owning {
        NewOwners(w, a, i);
      }
    }
    if (a.MarkRunning? || a.Park? || a.Finish?) && At(w, a.attempt, Owning) {
      assert !Owns(w, a.attempt, id);
    }
  }

  /** The parent parks for a child, and the child's attempt to resume it gets through. */
  function ResumedRun(id: ExecutionId): seq<Action> {
    [Create(0, id), Park(0, WAIT_INDEFINITELY), ChildDone(0, id)] + Resume(1)
  }

  function Resume(attempt: nat): seq<Action> {
    [Load(attempt), Reserve(attempt), Claim(attempt)]
  }

  /** An error stops the attempt after the claim, and its retry finds the row running. */
  function LostParentRun(id: ExecutionId): seq<Action> {
    ResumedRun(id) + ([Fault(1, true), Wake(1)] + Resume(1))
  }

  /** The parent's row while its only waiting attempt, the child's, is in `phase`. */
  function LostParent(id: ExecutionId, status: Status, phase: Phase, tries: nat): World {
    var parked, child := Attempt(0, id, Fresh, Ended(Parked), 1), Attempt(0, id, FromChild, phase, tries);
    World(map[id := Row(status, [WAIT_INDEFINITELY], 0)], [parked, child], [], map[],
          if status == Running then [Win(id, 1, 1)] else [])
  }

  /** The retry is dropped and the parent's row says running, though nobody runs it. */
  lemma RetryLosesParent(id: ExecutionId)
    ensures Run(INIT, LostParentRun(id)) == LostParent(id, Running, Ended(Swallowed), 2)
    ensures !HasOwner(Run(INIT, LostParentRun(id)), id)
  {
    var owned := LostParent(id, Running, Owning, 1);
    ResumedReached(id);
    LostParentRetried(id);
    RunTwo(owned, Fault(1, true), Wake(1));
    RunThree(LostParent(id, Running, Loading, 2), Load(1), Reserve(1), Claim(1));
    RunConcat(owned, [Fault(1, true), Wake(1)], Resume(1));
    RunConcat(INIT, ResumedRun(id), [Fault(1, true), Wake(1)] + Resume(1));
    NobodyOwnsLost(id);
  }

  lemma NobodyOwnsLost(id: ExecutionId)
    ensures !HasOwner(LostParent(id, Running, Ended(Swallowed), 2), id)
  {
  }

  lemma ResumedReached(id: ExecutionId)
    ensures Run(INIT, ResumedRun(id)) == LostParent(id, Running, Owning, 1)
  {
    CreatePark(id, WAIT_INDEFINITELY);
    LostParentClaimed(id);
    RunThree(INIT, Create(0, id), Park(0, WAIT_INDEFINITELY), ChildDone(0, id));
    RunThree(LostParent(id, Waiting, Loading, 1), Load(1), Reserve(1), Claim(1));
    RunConcat(INIT, [Create(0, id), Park(0, WAIT_INDEFINITELY), ChildDone(0, id)], Resume(1));
  }

  /** Parked once, until `waitTill`. */
  function ParkedOnce(id: ExecutionId, waitTill: int): World {
    World(map[id := Row(Waiting, [waitTill], 0)], [Attempt(0, id, Fresh, Ended(Parked), 1)], [], map[], [])
  }

  lemma CreatePark(id: ExecutionId, waitTill: int)
    ensures Next(Next(INIT, Create(0, id)), Park(0, waitTill)) == ParkedOnce(id, waitTill)
  {
    var owner := Attempt(0, id, Fresh, Owning, 1);
    assert Next(INIT, Create(0, id)) == World(map[id := Row(New, [], 0)], [owner], [], map[], []);
    assert [owner][0 := owner.(phase := Ended(Parked))] == [owner.(phase := Ended(Parked))];
    assert ToWaiting(Row(New, [], 0), waitTill) == Row(Waiting, [waitTill], 0);
  }

  lemma LostParentClaimed(id: ExecutionId)
    ensures Next(ParkedOnce(id, WAIT_INDEFINITELY), ChildDone(0, id)) == LostParent(id, Waiting, Loading, 1)
    ensures Next(LostParent(id, Waiting, Loading, 1), Load(1)) == LostParent(id, Waiting, Reserving, 1)
    ensures Next(LostParent(id, Waiting, Reserving, 1), Reserve(1)) == LostParent(id, Waiting, Claiming, 1)
    ensures Next(LostParent(id, Waiting, Claiming, 1), Claim(1)) == LostParent(id, Running, Owning, 1)
  {
  }

  lemma LostParentRetried(id: ExecutionId)
    ensures Next(LostParent(id, Running, Owning, 1), Fault(1, true)) == LostParent(id, Running, Backoff, 1)
    ensures Next(LostParent(id, Running, Backoff, 1), Wake(1)) == LostParent(id, Running, Loading, 2)
    ensures Next(LostParent(id, Running, Loading, 2), Load(1)) == LostParent(id, Running, Reserving, 2)
    ensures Next(LostParent(id, Running, Reserving, 2), Reserve(1)) == LostParent(id, Running, Claiming, 2)
    ensures Next(LostParent(id, Running, Claiming, 2), Claim(1)) == LostParent(id, Running, Ended(Swallowed), 2)
  {
  }

  // ---- Runs in parts ----

  lemma {:induction false} RunConcat(w: World, front: seq<Action>, back: seq<Action>)
    ensures Run(w, front + back) == Run(Run(w, front), back)
  {
    if back == [] {
      assert front + back == front;
    } else {
      var n := |back| - 1;
      assert (front + back)[..|front + back| - 1] == front + back[..n];
      RunConcat(w, front, back[..n]);
    }
  }

  lemma RunTwo(w: World, a: Action, b: Action)
    ensures Run(w, [a, b]) == Next(Next(w, a), b)
  {
    assert [a, b][..1] == [a] && [a][..0] == [];
    assert Run(w, [a]) == Next(w, a);
  }

  lemma RunThree(w: World, a: Action, b: Action, c: Action)
    ensures Run(w, [a, b, c]) == Next(Next(Next(w, a), b), c)
  {
    assert [a, b, c][..2] == [a, b];
    RunTwo(w, a, b);
  }
}
