/** The executions of one process: registration, concurrency slots, settling, stopping and shutdown. */
module ActiveExecutions {
  import opened Wrappers
  import opened Executions

  datatype Outcome = Resolved | Rejected

  /** The post-execute promise; `Handled` once its removal callback has run. */
  datatype Promise = Pending | Settled(outcome: Outcome) | Handled(outcome: Outcome)

  /** The object one successful `add` builds. */
  datatype Entry = Entry(id: ExecutionId, startedAt: int, status: Status, promise: Promise, limited: bool)

  /** `Granted`: past the reservation; a `limited` call then holds a slot until it fails or its entry is handled.
      `Withdrawn`: taken out of the queue, so the call never continues. */
  datatype Phase = Creating | Queued | Granted | Registered | Failed | Withdrawn

  /** One call of `add`; `limited` when its mode is subject to the concurrency limit. */
  datatype Add = Add(id: Option<ExecutionId>, limited: bool, phase: Phase)

  /** `active` points into `entries`, which keeps every object ever registered, as `adds` keeps every call.
      `regular` tells the mode, in which alone there is a limit; `resolved`, whether the limit for evaluations is known.
      `lapsed` is history: a shutdown has switched the limit off. */
  datatype State = State(
    active: map<ExecutionId, nat>,
    entries: seq<Entry>,
    adds: seq<Add>,
    enabled: bool,
    capacity: int,
    queue: seq<nat>,
    regular: bool,
    resolved: bool,
    lapsed: bool)

  datatype Action =
    | BeginNew(limited: bool)
    | BeginResume(id: ExecutionId, limited: bool)
    | Created(add: nat, id: ExecutionId)
    | Register(add: nat, now: int)
    | Fail(add: nat)
    | Withdraw(id: ExecutionId)
    | SetStatus(id: ExecutionId, status: Status)
    | Stop(id: ExecutionId)
    | Finalize(id: ExecutionId)
    | Handle(entry: nat)
    | Shutdown(cancelAll: bool)
    | ResolveEvaluation(limited: bool)

  /** The limit, the mode, and whether the limit for evaluations is known at the start. */
  datatype Config = Config(limit: nat, regular: bool, resolved: bool)

  function Init(c: Config): State {
    State(map[], [], [], c.regular, c.limit, [], c.regular, c.resolved, false)
  }

  // ---- The concurrency queue ----

  function WithPhase(s: State, i: nat, phase: Phase): State
    requires i < |s.adds|
  {
    s.(adds := s.adds[i := s.adds[i].(phase := phase)])
  }

  /** Takes a slot for call `i`, or queues the call when none is free. */
  function Reserve(s: State, i: nat): State
    requires i < |s.adds|
  {
    if !s.enabled || !s.adds[i].limited then WithPhase(s, i, Granted)
    else if s.capacity - 1 < 0 then WithPhase(s, i, Queued).(capacity := s.capacity - 1, queue := s.queue + [i])
    else WithPhase(s, i, Granted).(capacity := s.capacity - 1)
  }

  /** Returns a slot, handing it to the longest waiting call. */
  function Release(s: State, held: bool): State {
    if !s.enabled || !held then s
    else if s.queue == [] || s.queue[0] >= |s.adds| then s.(capacity := s.capacity + 1)
    else WithPhase(s, s.queue[0], Granted).(capacity := s.capacity + 1, queue := s.queue[1..])
  }

  /** The first place at or after `k` in the queue held by a call for `id`. */
  function FindQueued(s: State, id: ExecutionId, k: nat): (r: Option<nat>)
    requires k <= |s.queue|
    ensures r.Some? ==> k <= r.value < |s.queue| && IsQueuedFor(s, id, r.value)
    ensures forall l :: k <= l < (if r.Some? then r.value else |s.queue|) ==> !IsQueuedFor(s, id, l)
    decreases |s.queue| - k
  {
    if k == |s.queue| then None
    else if IsQueuedFor(s, id, k) then Some(k)
    else FindQueued(s, id, k + 1)
  }

  predicate IsQueuedFor(s: State, id: ExecutionId, k: int) {
    0 <= k < |s.queue| && s.queue[k] < |s.adds| && s.adds[s.queue[k]].id == Some(id)
  }

  /** Takes the call at place `k` out of the queue. */
  function TakeFromQueue(s: State, k: nat): State
    requires k < |s.queue| && s.queue[k] < |s.adds|
  {
    WithPhase(s, s.queue[k], Withdrawn).(queue := s.queue[..k] + s.queue[k + 1..])
  }

  /** Takes the queued call for `id` out of the queue and counts a slot as returned, which lets the next call in. */
  function WithdrawQueued(s: State, id: ExecutionId): State {
    if !s.enabled || FindQueued(s, id, 0).None? then s
    else Release(TakeFromQueue(s, FindQueued(s, id, 0).value), true)
  }

  /** The ids of the first `n` queued calls, each once. */
  function QueuedIds(s: State, n: nat): seq<ExecutionId>
    requires n <= |s.queue|
  {
    if n == 0 then []
    else
      var ids, i := QueuedIds(s, n - 1), s.queue[n - 1];
      if i < |s.adds| && s.adds[i].id.Some? && s.adds[i].id.value !in ids then ids + [s.adds[i].id.value] else ids
  }

  function WithdrawEach(s: State, ids: seq<ExecutionId>): State
    decreases |ids|
  {
    if ids == [] then s else WithdrawEach(WithdrawQueued(s, ids[0]), ids[1..])
  }

  /** Withdraws every id found in the queue, unless the limit is off. */
  function RemoveAllQueued(s: State): State {
    if !s.enabled then s else WithdrawEach(s, QueuedIds(s, |s.queue|))
  }

  // ---- The transitions ----

  function Settle(p: Promise, outcome: Outcome): Promise {
    if p.Pending? then Settled(outcome) else p
  }

  function SettleEntry(e: Entry, outcome: Outcome): Entry {
    e.(promise := Settle(e.promise, outcome))
  }

  ghost predicate Listed(s: State, id: ExecutionId) {
    id in s.active && s.active[id] < |s.entries|
  }

  ghost function Current(s: State, id: ExecutionId): Entry
    requires Listed(s, id)
  {
    s.entries[s.active[id]]
  }

  ghost function WithCurrent(s: State, id: ExecutionId, e: Entry): State
    requires Listed(s, id)
  {
    s.(entries := s.entries[s.active[id] := e])
  }

  ghost function RegisterEntry(s: State, i: nat, now: int): State
    requires i < |s.adds| && s.adds[i].id.Some?
  {
    var id := s.adds[i].id.value;
    var startedAt := if Listed(s, id) then Current(s, id).startedAt else now;
    WithPhase(s, i, Registered).(
      entries := s.entries + [Entry(id, startedAt, Running, Pending, s.adds[i].limited)],
      active := s.active[id := |s.entries|])
  }

  ghost function StopById(s: State, id: ExecutionId): State {
    if !Listed(s, id) then s
    else if Current(s, id).status == Waiting then s.(active := s.active - {id})
    else WithCurrent(s, id, SettleEntry(Current(s, id), Rejected))
  }

  /** The removal callback: returns the slot, then drops whatever is listed under the id unless waiting. */
  ghost function HandleEntry(s: State, e: nat): State
    requires e < |s.entries| && s.entries[e].promise.Settled?
  {
    var entry := s.entries[e];
    var done := entry.(promise := Handled(entry.promise.outcome));
    var s' := Release(s.(entries := s.entries[e := done]), entry.limited);
    if entry.status == Waiting then s' else s'.(active := s'.active - {entry.id})
  }

  /** Whether the first shutdown pass takes an entry with this status off the list. */
  predicate Dropped(status: Status, cancelling: bool) {
    status == Waiting || (!cancelling && status == New)
  }

  ghost function ShutdownPass(s: State, cancelAll: bool): State {
    PassBut(s, cancelAll, {})
  }

  /** The pass with the executions in `todo` not reached yet. */
  ghost function PassBut(s: State, cancelAll: bool, todo: set<ExecutionId>): State {
    var cancelling := s.regular && cancelAll;
    s.(enabled := s.enabled && !s.regular,
       lapsed := s.lapsed || s.regular,
       active := map id | id in s.active && (id in todo || !DropsListed(s, id, cancelling)) :: s.active[id],
       entries := PassedEntries(s, |s.entries|, cancelling, todo))
  }

  ghost function PassedEntries(s: State, n: nat, cancelling: bool, todo: set<ExecutionId>): (r: seq<Entry>)
    requires n <= |s.entries|
    ensures |r| == n && forall e :: 0 <= e < n ==> r[e] == PassedEntry(s, e, cancelling, todo)
  {
    if n == 0 then [] else PassedEntries(s, n - 1, cancelling, todo) + [PassedEntry(s, n - 1, cancelling, todo)]
  }

  ghost predicate DropsListed(s: State, id: ExecutionId, cancelling: bool) {
    Listed(s, id) && Dropped(Current(s, id).status, cancelling)
  }

  ghost function PassedEntry(s: State, e: nat, cancelling: bool, todo: set<ExecutionId>): Entry
    requires e < |s.entries|
  {
    if cancelling && IsCurrent(s, e) && s.entries[e].id !in todo && s.entries[e].status != Waiting
    then SettleEntry(s.entries[e], Rejected)
    else s.entries[e]
  }

  /** Entry `e` is the one listed under its own id. */
  ghost predicate IsCurrent(s: State, e: int) {
    0 <= e < |s.entries| && s.entries[e].id in s.active && s.active[s.entries[e].id] == e
  }

  /** One atomic step; an action that cannot happen in `s` changes nothing. */
  ghost function Next(s: State, a: Action): State {
    match a
    case BeginNew(limited) => s.(adds := s.adds + [Add(None, limited, Creating)])
    case BeginResume(id, limited) => Reserve(s.(adds := s.adds + [Add(Some(id), limited, Creating)]), |s.adds|)
    case Created(i, id) =>
      if i < |s.adds| && s.adds[i].phase == Creating
      then Reserve(s.(adds := s.adds[i := s.adds[i].(id := Some(id))]), i) else s
    case Register(i, now) =>
      if i < |s.adds| && s.adds[i].phase == Granted && s.adds[i].id.Some? then RegisterEntry(s, i, now) else s
    case Fail(i) =>
      if i < |s.adds| && s.adds[i].phase == Creating then WithPhase(s, i, Failed)
      else if i < |s.adds| && s.adds[i].phase == Granted then Release(WithPhase(s, i, Failed), s.adds[i].limited)
      else s
    case Withdraw(id) => WithdrawQueued(s, id)
    case SetStatus(id, status) =>
      if Listed(s, id) then WithCurrent(s, id, Current(s, id).(status := status)) else s
    case Stop(id) => StopById(s, id)
    case Finalize(id) =>
      if Listed(s, id) then WithCurrent(s, id, SettleEntry(Current(s, id), Resolved)) else s
    case Handle(e) =>
      if e < |s.entries| && s.entries[e].promise.Settled? then HandleEntry(s, e) else s
    case Shutdown(cancelAll) => RemoveAllQueued(ShutdownPass(s, cancelAll))
    case ResolveEvaluation(limited) =>
      if s.resolved then s else s.(resolved := true, enabled := s.enabled || (s.regular && limited))
  }

  /** The state after a whole run. */
  ghost function Run(s: State, run: seq<Action>): State {
    if run == [] then s else Next(Run(s, run[..|run| - 1]), run[|run| - 1])
  }

  // ---- What the single steps do ----

  /** Finalising resolves a pending promise, whatever the status, and does nothing else. */
  lemma FinalizeResolves(s: State, id: ExecutionId)
    ensures Listed(s, id) && Current(s, id).promise.Pending? ==>
      Next(s, Finalize(id)) == WithCurrent(s, id, Current(s, id).(promise := Settled(Resolved)))
    ensures !Listed(s, id) || !Current(s, id).promise.Pending? ==> Next(s, Finalize(id)) == s
  {
    if Listed(s, id) {
      assert s.entries[s.active[id] := Current(s, id)] == s.entries;
    }
  }

  /** Stopping drops a waiting execution and leaves its promise; it rejects the pending promise of any other, which
      stays listed; it ignores an unknown id. */
  lemma StopRejects(s: State, id: ExecutionId)
    ensures Listed(s, id) && Current(s, id).status == Waiting ==> Next(s, Stop(id)) == s.(active := s.active - {id})
    ensures Listed(s, id) && Current(s, id).status != Waiting && Current(s, id).promise.Pending? ==>
      Next(s, Stop(id)) == WithCurrent(s, id, Current(s, id).(promise := Settled(Rejected)))
    ensures !Listed(s, id) || (Current(s, id).status != Waiting && !Current(s, id).promise.Pending?) ==>
      Next(s, Stop(id)) == s
  {
    if Listed(s, id) {
      assert s.entries[s.active[id] := Current(s, id)] == s.entries;
    }
  }

  lemma StatusIsSet(s: State, id: ExecutionId, status: Status)
    ensures var s' := Next(s, SetStatus(id, status));
      if !Listed(s, id) then s' == s
      else s' == WithCurrent(s, id, Current(s, id).(status := status))
  {
  }

  /** Registering lists a running execution with a pending promise, and leaves all others and all earlier objects. */
  lemma RegisteredIsListed(s: State, i: nat, now: int)
    requires i < |s.adds| && s.adds[i].phase == Granted && s.adds[i].id.Some?
    ensures var s', id := Next(s, Register(i, now)), s.adds[i].id.value;
      && Listed(s', id) && s'.active[id] == |s.entries|
      && Current(s', id) == Entry(id, if Listed(s, id) then Current(s, id).startedAt else now,
                                  Running, Pending, s.adds[i].limited)
      && s'.active - {id} == s.active - {id} && s'.entries[..|s.entries|] == s.entries
      && s'.adds == s.adds[i := s.adds[i].(phase := Registered)]
      && s'.capacity == s.capacity && s'.queue == s.queue
  {
  }

  // ---- Slot conservation on every run ----

  ghost predicate AddHolds(a: Add) {
    a.limited && a.phase == Granted
  }

  ghost predicate EntryHolds(e: Entry) {
    e.limited && !e.promise.Handled?
  }

  /** Slots in use: reserved by calls still under way, or by entries whose callback has not run. */
  ghost function Held(s: State): nat {
    Count(s.adds, AddHolds) + Count(s.entries, EntryHolds)
  }

  /** The queue lists exactly the queued calls, each once. */
  ghost predicate QueueSound(s: State) {
    && (forall k :: 0 <= k < |s.queue| ==> s.queue[k] < |s.adds| && WaitsForSlot(s.adds[s.queue[k]]))
    && (forall k, l :: 0 <= k < l < |s.queue| ==> s.queue[k] != s.queue[l])
    && (forall i :: 0 <= i < |s.adds| && s.adds[i].phase == Queued ==> i in s.queue)
  }

  predicate WaitsForSlot(a: Add) {
    a.limited && a.id.Some? && a.phase == Queued
  }

  /** The limit is on and has been since the start. */
  predicate InForce(s: State) {
    s.enabled && !s.lapsed
  }

  /** There is a limit in regular mode only, and there it is on until it lapses. */
  predicate ModeSound(s: State) {
    (s.enabled ==> s.regular) && (!s.lapsed ==> s.enabled == s.regular)
  }

  ghost predicate SlotsBalance(s: State, limit: nat) {
    && QueueSound(s)
    && ModeSound(s)
    && (InForce(s) ==> s.capacity + Held(s) + |s.queue| == limit)
    && (InForce(s) ==> |s.queue| <= if s.capacity < 0 then -s.capacity else 0)
  }

  lemma SetAdd(s: State, i: nat, a: Add)
    requires i < |s.adds|
    ensures Held(s.(adds := s.adds[i := a])) + One(AddHolds(s.adds[i])) == Held(s) + One(AddHolds(a))
  {
    CountUpdate(s.adds, i, a, AddHolds);
  }

  lemma SetEntry(s: State, e: nat, entry: Entry)
    requires e < |s.entries|
    ensures Held(s.(entries := s.entries[e := entry])) + One(EntryHolds(s.entries[e])) ==
            Held(s) + One(EntryHolds(entry))
  {
    CountUpdate(s.entries, e, entry, EntryHolds);
  }

  lemma ReserveBalances(s: State, i: nat, limit: nat)
    requires SlotsBalance(s, limit) && i < |s.adds| && s.adds[i].phase == Creating && s.adds[i].id.Some?
    ensures SlotsBalance(Reserve(s, i), limit)
  {
    SetAdd(s, i, s.adds[i].(phase := Granted));
    SetAdd(s, i, s.adds[i].(phase := Queued));
    var s' := Reserve(s, i);
    assert s'.queue == s.queue || s'.queue == s.queue + [i];
    assert forall j :: 0 <= j < |s'.adds| && s'.adds[j].phase == Queued ==> j in s'.queue;
  }

  /** Returning a slot the books still count as taken. */
  lemma ReleaseBalances(s: State, held: bool, limit: nat)
    requires QueueSound(s) && ModeSound(s)
    requires InForce(s) ==> s.capacity + Held(s) + One(held) + |s.queue| == limit
    requires InForce(s) ==> |s.queue| <= if s.capacity < 0 then -s.capacity else 0
    ensures SlotsBalance(Release(s, held), limit)
  {
    if s.enabled && held && s.queue != [] {
      var i := s.queue[0];
      SetAdd(s, i, s.adds[i].(phase := Granted));
      var s' := Release(s, held);
      assert forall k :: 0 <= k < |s'.queue| ==> s'.queue[k] == s.queue[k + 1];
      forall j | 0 <= j < |s'.adds| && s'.adds[j].phase == Queued
        ensures j in s'.queue
      {
        assert j in s.queue && j != s.queue[0];
      }
    }
  }

  lemma ShutdownBalances(s: State, cancelAll: bool, limit: nat)
    requires SlotsBalance(s, limit)
    ensures SlotsBalance(Next(s, Shutdown(cancelAll)), limit)
    ensures Next(s, Shutdown(cancelAll)) == ShutdownPass(s, cancelAll)
  {
  }

  lemma BeginBalances(s: State, add: Add, limit: nat)
    requires SlotsBalance(s, limit) && add.phase == Creating
    ensures SlotsBalance(s.(adds := s.adds + [add]), limit)
    ensures add.id.Some? ==> SlotsBalance(Reserve(s.(adds := s.adds + [add]), |s.adds|), limit)
  {
    CountAppend(s.adds, add, AddHolds);
    if add.id.Some? {
      ReserveBalances(s.(adds := s.adds + [add]), |s.adds|, limit);
    }
  }

  lemma CreatedBalances(s: State, i: nat, id: ExecutionId, limit: nat)
    requires SlotsBalance(s, limit)
    ensures SlotsBalance(Next(s, Created(i, id)), limit)
  {
    if i < |s.adds| && s.adds[i].phase == Creating {
      SetAdd(s, i, s.adds[i].(id := Some(id)));
      ReserveBalances(s.(adds := s.adds[i := s.adds[i].(id := Some(id))]), i, limit);
    }
  }

  lemma RegisterBalances(s: State, i: nat, now: int, limit: nat)
    requires SlotsBalance(s, limit)
    ensures SlotsBalance(Next(s, Register(i, now)), limit)
  {
    if i < |s.adds| && s.adds[i].phase == Granted && s.adds[i].id.Some? {
      SetAdd(s, i, s.adds[i].(phase := Registered));
      var s' := RegisterEntry(s, i, now);
      CountAppend(s.entries, s'.entries[|s.entries|], EntryHolds);
    }
  }

  lemma FailBalances(s: State, i: nat, limit: nat)
    requires SlotsBalance(s, limit)
    ensures SlotsBalance(Next(s, Fail(i)), limit)
  {
    if i < |s.adds| && (s.adds[i].phase == Creating || s.adds[i].phase == Granted) {
      SetAdd(s, i, s.adds[i].(phase := Failed));
      ReleaseBalances(WithPhase(s, i, Failed), s.adds[i].limited && s.adds[i].phase == Granted, limit);
    }
  }

  lemma TakeKeepsQueue(s: State, k: nat)
    requires QueueSound(s) && k < |s.queue|
    ensures QueueSound(TakeFromQueue(s, k)) && Held(TakeFromQueue(s, k)) == Held(s)
  {
    SetAdd(s, s.queue[k], s.adds[s.queue[k]].(phase := Withdrawn));
    QueueWithout(s.queue, k);
    var s' := TakeFromQueue(s, k);
    forall l | 0 <= l < |s'.queue|
      ensures s'.queue[l] < |s'.adds| && s'.adds[s'.queue[l]] == s.adds[s'.queue[l]]
      ensures s'.adds[s'.queue[l]].limited && s'.adds[s'.queue[l]].phase == Queued
    {
      assert s'.queue[l] in s'.queue;
    }
    forall i | 0 <= i < |s'.adds| && s'.adds[i].phase == Queued
      ensures i in s'.queue
    {
      assert i in s.queue && i != s.queue[k];
    }
  }

  /** Taking place `k` out leaves the other members, each still once. */
  lemma QueueWithout(queue: seq<nat>, k: nat)
    requires k < |queue| && forall l, m :: 0 <= l < m < |queue| ==> queue[l] != queue[m]
    ensures var rest := queue[..k] + queue[k + 1..];
      && (forall i :: i in rest <==> i in queue && i != queue[k])
      && (forall l, m :: 0 <= l < m < |rest| ==> rest[l] != rest[m])
  {
    var rest := queue[..k] + queue[k + 1..];
    assert queue == queue[..k] + ([queue[k]] + queue[k + 1..]);
    assert forall l :: 0 <= l < |rest| ==> rest[l] == queue[if l < k then l else l + 1];
  }

  lemma WithdrawBalances(s: State, id: ExecutionId, limit: nat)
    requires SlotsBalance(s, limit)
    ensures SlotsBalance(Next(s, Withdraw(id)), limit)
  {
    var k := FindQueued(s, id, 0);
    if s.enabled && k.Some? {
      TakeKeepsQueue(s, k.value);
      ReleaseBalances(TakeFromQueue(s, k.value), true, limit);
    }
  }

  /** Changing an entry without moving its slot. */
  lemma EntryBalances(s: State, e: nat, entry: Entry, limit: nat)
    requires SlotsBalance(s, limit) && e < |s.entries| && EntryHolds(entry) == EntryHolds(s.entries[e])
    ensures SlotsBalance(s.(entries := s.entries[e := entry]), limit)
  {
    SetEntry(s, e, entry);
  }

  lemma HandleBalances(s: State, e: nat, limit: nat)
    requires SlotsBalance(s, limit) && e < |s.entries| && s.entries[e].promise.Settled?
    ensures SlotsBalance(HandleEntry(s, e), limit)
  {
    var entry := s.entries[e];
    var done := entry.(promise := Handled(entry.promise.outcome));
    SetEntry(s, e, done);
    ReleaseBalances(s.(entries := s.entries[e := done]), entry.limited, limit);
  }

  lemma StepBalances(s: State, a: Action, limit: nat)
    requires SlotsBalance(s, limit)
    ensures SlotsBalance(Next(s, a), limit)
  {
    match a
    case BeginNew(limited) => BeginBalances(s, Add(None, limited, Creating), limit);
    case BeginResume(id, limited) => BeginBalances(s, Add(Some(id), limited, Creating), limit);
    case Created(i, id) => CreatedBalances(s, i, id, limit);
    case Register(i, now) => RegisterBalances(s, i, now, limit);
    case Fail(i) => FailBalances(s, i, limit);
    case Withdraw(id) => WithdrawBalances(s, id, limit);
    case SetStatus(id, status) =>
      if Listed(s, id) {
        EntryBalances(s, s.active[id], Current(s, id).(status := status), limit);
      }
    case Stop(id) =>
      if Listed(s, id) {
        EntryBalances(s, s.active[id], SettleEntry(Current(s, id), Rejected), limit);
      }
    case Finalize(id) =>
      if Listed(s, id) {
        EntryBalances(s, s.active[id], SettleEntry(Current(s, id), Resolved), limit);
      }
    case Handle(e) =>
      if e < |s.entries| && s.entries[e].promise.Settled? {
        HandleBalances(s, e, limit);
      }
    case Shutdown(cancelAll) => ShutdownBalances(s, cancelAll, limit);
    case ResolveEvaluation(limited) =>
  }

  /** On every run, until the limit is switched off: free slots, held slots and waiting calls balance. */
  lemma {:induction false} SlotConservation(c: Config, run: seq<Action>)
    ensures SlotsBalance(Run(Init(c), run), c.limit)
  {
    if run != [] {
      SlotConservation(c, run[..|run| - 1]);
      StepBalances(Run(Init(c), run[..|run| - 1]), run[|run| - 1], c.limit);
    }
  }

  /** A call waits only while all slots are in use, and no slot leaks. */
  lemma SlotLimits(c: Config, run: seq<Action>)
    ensures var s := Run(Init(c), run);
      InForce(s) ==>
        && (s.queue != [] ==> Held(s) >= c.limit)
        && (c.limit > 0 && Idle(s) ==> s.queue == [] && s.capacity == c.limit)
  {
    SlotConservation(c, run);
    var s := Run(Init(c), run);
    if Idle(s) {
      CountZero(s.adds, AddHolds);
      CountZero(s.entries, EntryHolds);
    }
  }

  /** No call and no entry holds a slot. */
  ghost predicate Idle(s: State) {
    (forall a :: a in s.adds ==> !AddHolds(a)) && (forall e :: e in s.entries ==> !EntryHolds(e))
  }

  // ---- Exactly when the limit is kept ----

  ghost predicate WithinLimit(s: State, limit: nat) {
    InForce(s) ==> Held(s) <= limit
  }

  /** A queued call is withdrawn while another one waits. */
  ghost predicate Overtakes(s: State, a: Action) {
    a.Withdraw? && InForce(s) && FindQueued(s, a.id, 0).Some? && |s.queue| >= 2
  }

  /** Negative when more slots are in use than there are. */
  function Slack(s: State): int {
    s.capacity + |s.queue|
  }

  lemma WithinBySlack(s: State, limit: nat)
    requires SlotsBalance(s, limit)
    ensures WithinLimit(s, limit) <==> (InForce(s) ==> Slack(s) >= 0)
  {
  }

  lemma ReserveSlack(s: State, i: nat)
    requires i < |s.adds| && Slack(s) >= 0
    ensures Slack(Reserve(s, i)) >= 0
  {
  }

  lemma ReleaseSlack(s: State, held: bool)
    requires s.queue != [] ==> s.queue[0] < |s.adds|
    ensures Slack(Release(s, held)) == Slack(s) + One(s.enabled && held && s.queue == [])
  {
  }

  lemma WithdrawSlack(s: State, id: ExecutionId)
    requires QueueSound(s) && s.enabled && Slack(s) >= 0 && (s.queue != [] ==> Slack(s) == 0)
    ensures Slack(WithdrawQueued(s, id)) >= 0 <==> !(FindQueued(s, id, 0).Some? && |s.queue| >= 2)
  {
    var k := FindQueued(s, id, 0);
    if k.Some? {
      var s1 := TakeFromQueue(s, k.value);
      TakeKeepsQueue(s, k.value);
      assert |s1.queue| == |s.queue| - 1 && s1.capacity == s.capacity && s1.enabled;
      ReleaseSlack(s1, true);
      assert WithdrawQueued(s, id) == Release(s1, true);
    }
  }

  lemma StepSlack(s: State, a: Action)
    requires QueueSound(s) && InForce(s) && s.regular && Slack(s) >= 0 && (s.queue != [] ==> Slack(s) == 0)
    ensures Slack(Next(s, a)) >= 0 <==> !Overtakes(s, a)
  {
    match a
    case BeginResume(id, limited) =>
      ReserveSlack(s.(adds := s.adds + [Add(Some(id), limited, Creating)]), |s.adds|);
    case Created(i, id) =>
      if i < |s.adds| && s.adds[i].phase == Creating {
        ReserveSlack(s.(adds := s.adds[i := s.adds[i].(id := Some(id))]), i);
      }
    case Fail(i) =>
      if i < |s.adds| && s.adds[i].phase == Granted {
        ReleaseSlack(WithPhase(s, i, Failed), s.adds[i].limited);
      }
    case Withdraw(id) => WithdrawSlack(s, id);
    case Handle(e) =>
      if e < |s.entries| && s.entries[e].promise.Settled? {
        var done := s.entries[e].(promise := Handled(s.entries[e].promise.outcome));
        ReleaseSlack(s.(entries := s.entries[e := done]), s.entries[e].limited);
      }
    case _ =>
  }

  /** A withdrawal lets the next waiting call in although no slot was freed. */
  lemma StepWithin(s: State, a: Action, limit: nat)
    requires SlotsBalance(s, limit) && WithinLimit(s, limit)
    ensures WithinLimit(Next(s, a), limit) <==> !Overtakes(s, a)
  {
    StepBalances(s, a, limit);
    WithinBySlack(s, limit);
    WithinBySlack(Next(s, a), limit);
    if InForce(s) {
      StepSlack(s, a);
      StepInForce(s, a);
    } else {
      StepNotInForce(s, a);
    }
  }

  lemma StepInForce(s: State, a: Action)
    requires InForce(s) && ModeSound(s)
    ensures InForce(Next(s, a)) <==> !a.Shutdown?
  {
    StepMode(s, a);
  }

  lemma StepNotInForce(s: State, a: Action)
    requires !InForce(s) && ModeSound(s)
    ensures !InForce(Next(s, a))
  {
    StepMode(s, a);
  }

  /** Only a shutdown and learning the limit for evaluations change whether the limit is on. */
  lemma StepMode(s: State, a: Action)
    requires ModeSound(s)
    ensures !a.Shutdown? && !a.ResolveEvaluation? ==>
      Next(s, a).enabled == s.enabled && Next(s, a).lapsed == s.lapsed && Next(s, a).regular == s.regular
    ensures a.Shutdown? ==> Next(s, a) == ShutdownPass(s, a.cancelAll)
  {
    if OfQueue(a) {
      QueueKeepsList(s, a);
    } else if a.Handle? && a.entry < |s.entries| && s.entries[a.entry].promise.Settled? {
      var done := s.entries[a.entry].(promise := Handled(s.entries[a.entry].promise.outcome));
      ReleaseKeeps(s.(entries := s.entries[a.entry := done]), s.entries[a.entry].limited);
    }
  }

  /** The limit holds after every prefix of the run. */
  ghost predicate AlwaysWithin(c: Config, run: seq<Action>) {
    WithinLimit(Run(Init(c), run), c.limit) && (run != [] ==> AlwaysWithin(c, run[..|run| - 1]))
  }

  ghost predicate NeverOvertakes(c: Config, run: seq<Action>) {
    run != [] ==>
      NeverOvertakes(c, run[..|run| - 1]) && !Overtakes(Run(Init(c), run[..|run| - 1]), run[|run| - 1])
  }

  /** No more than `limit` slots are ever in use, until the limit is switched off, exactly when no queued call
      is withdrawn while another one waits. */
  lemma {:induction false} LimitKeptExactly(c: Config, run: seq<Action>)
    ensures AlwaysWithin(c, run) <==> NeverOvertakes(c, run)
  {
    if run == [] {
      SlotConservation(c, run);
      WithinBySlack(Init(c), c.limit);
    } else {
      var front := run[..|run| - 1];
      LimitKeptExactly(c, front);
      SlotConservation(c, front);
      if AlwaysWithin(c, front) {
        StepWithin(Run(Init(c), front), run[|run| - 1], c.limit);
      }
    }
  }

  /** One call running and two waiting. */
  function Crowded(a: ExecutionId, b: ExecutionId, c: ExecutionId): State {
    var adds := [Add(Some(a), true, Granted), Add(Some(b), true, Queued), Add(Some(c), true, Queued)];
    State(map[], [], adds, true, -2, [1, 2], true, false, false)
  }

  const SINGLE := Config(1, true, false)

  lemma CrowdedReached(a: ExecutionId, b: ExecutionId, c: ExecutionId)
    ensures Run(Init(SINGLE), [BeginResume(a, true), BeginResume(b, true), BeginResume(c, true)]) == Crowded(a, b, c)
  {
    var one := Init(SINGLE).(adds := [Add(Some(a), true, Granted)], capacity := 0);
    var two := one.(adds := one.adds + [Add(Some(b), true, Queued)], capacity := -1, queue := [1]);
    assert Next(Init(SINGLE), BeginResume(a, true)) == one;
    assert Next(one, BeginResume(b, true)) == two;
    assert Next(two, BeginResume(c, true)) == Crowded(a, b, c);
    RunTwo(Init(SINGLE), BeginResume(a, true), BeginResume(b, true));
    var run := [BeginResume(a, true), BeginResume(b, true), BeginResume(c, true)];
    assert run[..2] == [BeginResume(a, true), BeginResume(b, true)];
  }

  /** With a limit of one, withdrawing the first of two waiting calls leaves two slots in use. */
  lemma WithdrawalOvershoots(a: ExecutionId, b: ExecutionId, c: ExecutionId)
    ensures exists run :: !WithinLimit(Run(Init(SINGLE), run), 1)
  {
    var run := [BeginResume(a, true), BeginResume(b, true), BeginResume(c, true)];
    CrowdedReached(a, b, c);
    SlotConservation(SINGLE, run);
    WithinBySlack(Crowded(a, b, c), 1);
    assert IsQueuedFor(Crowded(a, b, c), b, 0);
    StepWithin(Crowded(a, b, c), Withdraw(b), 1);
    assert (run + [Withdraw(b)])[..|run|] == run;
    assert !WithinLimit(Run(Init(SINGLE), run + [Withdraw(b)]), 1);
  }

  // ---- Counting by the list of active executions ----

  /** Every listed id points to an entry registered under that id. */
  ghost predicate Indexed(s: State) {
    forall id :: id in s.active ==> s.active[id] < |s.entries| && s.entries[s.active[id]].id == id
  }

  /** Every entry whose callback is outstanding is the one listed under its id. */
  ghost predicate Owned(s: State) {
    forall e :: 0 <= e < |s.entries| && !s.entries[e].promise.Handled? ==> IsCurrent(s, e)
  }

  /** No shutdown, and an execution is resumed or stopped as waiting only once its callback has run. */
  ghost predicate Calm(s: State, a: Action) {
    match a
    case Register(i, _) =>
      i < |s.adds| && s.adds[i].id.Some? && Listed(s, s.adds[i].id.value) ==>
        Current(s, s.adds[i].id.value).promise.Handled?
    case Stop(id) => Listed(s, id) && Current(s, id).status == Waiting ==> Current(s, id).promise.Handled?
    case Shutdown(_) => false
    case _ => true
  }

  ghost predicate CalmRun(s: State, run: seq<Action>) {
    run != [] ==> CalmRun(s, run[..|run| - 1]) && Calm(Run(s, run[..|run| - 1]), run[|run| - 1])
  }

  /** Whatever happens in the queue, the list, the entries and the mode stay. */
  predicate KeepsList(s: State, s': State) {
    && s'.active == s.active && s'.entries == s.entries
    && s'.enabled == s.enabled && s'.regular == s.regular && s'.lapsed == s.lapsed
  }

  lemma ReserveKeeps(s: State, i: nat)
    requires i < |s.adds|
    ensures KeepsList(s, Reserve(s, i))
  {
  }

  lemma ReleaseKeeps(s: State, held: bool)
    ensures KeepsList(s, Release(s, held)) && |Release(s, held).queue| <= |s.queue|
  {
  }

  lemma WithdrawKeeps(s: State, id: ExecutionId)
    ensures KeepsList(s, WithdrawQueued(s, id)) && |WithdrawQueued(s, id).queue| <= |s.queue|
  {
    var k := FindQueued(s, id, 0);
    if k.Some? {
      ReleaseKeeps(TakeFromQueue(s, k.value), true);
    }
  }

  /** The steps of calls and of the queue. */
  predicate OfQueue(a: Action) {
    a.BeginNew? || a.BeginResume? || a.Created? || a.Fail? || a.Withdraw? || a.ResolveEvaluation?
  }

  lemma QueueKeepsList(s: State, a: Action)
    requires OfQueue(a)
    ensures Next(s, a).active == s.active && Next(s, a).entries == s.entries
    ensures Next(s, a).regular == s.regular && Next(s, a).lapsed == s.lapsed
    ensures !a.ResolveEvaluation? ==> Next(s, a).enabled == s.enabled
  {
    match a
    case BeginResume(id, limited) =>
      ReserveKeeps(s.(adds := s.adds + [Add(Some(id), limited, Creating)]), |s.adds|);
    case Created(i, id) =>
      if i < |s.adds| && s.adds[i].phase == Creating {
        ReserveKeeps(s.(adds := s.adds[i := s.adds[i].(id := Some(id))]), i);
      }
    case Fail(i) =>
      if i < |s.adds| && s.adds[i].phase == Granted {
        ReleaseKeeps(WithPhase(s, i, Failed), s.adds[i].limited);
      }
    case Withdraw(id) => WithdrawKeeps(s, id);
    case _ =>
  }

  lemma {:induction false} WithdrawEachKeeps(s: State, ids: seq<ExecutionId>)
    ensures var s' := WithdrawEach(s, ids); s'.active == s.active && s'.entries == s.entries
    ensures |WithdrawEach(s, ids).queue| <= |s.queue|
    decreases |ids|
  {
    if ids != [] {
      WithdrawKeeps(s, ids[0]);
      WithdrawEachKeeps(WithdrawQueued(s, ids[0]), ids[1..]);
    }
  }

  /** Emptying the queue touches neither the list nor any entry. */
  lemma RemoveAllKeeps(s: State)
    ensures RemoveAllQueued(s).active == s.active && RemoveAllQueued(s).entries == s.entries
  {
    WithdrawEachKeeps(s, QueuedIds(s, |s.queue|));
  }

  lemma StepIndexed(s: State, a: Action)
    requires Indexed(s)
    ensures Indexed(Next(s, a))
  {
    var s' := Next(s, a);
    ListedBefore(s, a);
    forall id | id in s'.active
      ensures s'.active[id] < |s'.entries| && s'.entries[s'.active[id]].id == id
    {
      if id in s.active && s'.active[id] == s.active[id] {
        StepKeepsEntry(s, a, s.active[id]);
      } else {
        assert s' == RegisterEntry(s, a.add, a.now);
      }
    }
  }

  /** Only registering lists anything new. */
  lemma ListedBefore(s: State, a: Action)
    ensures forall id :: id in Next(s, a).active ==>
      || (id in s.active && Next(s, a).active[id] == s.active[id])
      || (a.Register? && a.add < |s.adds| && s.adds[a.add].id == Some(id) &&
          Next(s, a) == RegisterEntry(s, a.add, a.now))
  {
    if a.Shutdown? {
      RemoveAllKeeps(ShutdownPass(s, a.cancelAll));
    } else if OfQueue(a) {
      QueueKeepsList(s, a);
    }
  }

  lemma {:induction false} AlwaysIndexed(c: Config, run: seq<Action>)
    ensures Indexed(Run(Init(c), run))
  {
    if run != [] {
      AlwaysIndexed(c, run[..|run| - 1]);
      StepIndexed(Run(Init(c), run[..|run| - 1]), run[|run| - 1]);
    }
  }

  lemma OwnedUntouched(s: State, s': State)
    requires Owned(s) && s'.active == s.active && s'.entries == s.entries
    ensures Owned(s')
  {
    forall e | 0 <= e < |s'.entries| && !s'.entries[e].promise.Handled?
      ensures IsCurrent(s', e)
    {
      assert IsCurrent(s, e);
    }
  }

  lemma OwnedChange(s: State, k: nat, entry: Entry)
    requires Owned(s) && k < |s.entries| && entry.id == s.entries[k].id
    requires s.entries[k].promise.Handled? ==> entry.promise.Handled?
    ensures Owned(s.(entries := s.entries[k := entry]))
  {
    var s' := s.(entries := s.entries[k := entry]);
    forall e | 0 <= e < |s'.entries| && !s'.entries[e].promise.Handled?
      ensures IsCurrent(s', e)
    {
      assert IsCurrent(s, e);
    }
  }

  lemma OwnedDrop(s: State, id: ExecutionId)
    requires Owned(s) && (Listed(s, id) ==> Current(s, id).promise.Handled?)
    ensures Owned(s.(active := s.active - {id}))
  {
    var s' := s.(active := s.active - {id});
    forall e | 0 <= e < |s'.entries| && !s'.entries[e].promise.Handled?
      ensures IsCurrent(s', e)
    {
      assert IsCurrent(s, e);
    }
  }

  lemma OwnedRegister(s: State, i: nat, now: int)
    requires Indexed(s) && Owned(s) && Calm(s, Register(i, now)) && i < |s.adds| && s.adds[i].id.Some?
    ensures Owned(RegisterEntry(s, i, now))
  {
    var s' := RegisterEntry(s, i, now);
    forall e | 0 <= e < |s'.entries| && !s'.entries[e].promise.Handled?
      ensures IsCurrent(s', e)
    {
      if e < |s.entries| {
        assert IsCurrent(s, e);
      }
    }
  }

  lemma OwnedHandle(s: State, e: nat)
    requires Owned(s) && e < |s.entries| && s.entries[e].promise.Settled?
    ensures Owned(HandleEntry(s, e))
  {
    var entry := s.entries[e];
    var done := entry.(promise := Handled(entry.promise.outcome));
    var s1 := s.(entries := s.entries[e := done]);
    assert IsCurrent(s, e);
    OwnedChange(s, e, done);
    OwnedUntouched(s1, Release(s1, entry.limited));
    OwnedDrop(Release(s1, entry.limited), entry.id);
  }

  lemma CalmMode(s: State, a: Action)
    requires Calm(s, a) && s.enabled == s.regular
    ensures var s' := Next(s, a); s'.enabled == s'.regular == s.regular && s'.lapsed == s.lapsed
  {
    if OfQueue(a) {
      QueueKeepsList(s, a);
    } else if a.Handle? && a.entry < |s.entries| && s.entries[a.entry].promise.Settled? {
      var done := s.entries[a.entry].(promise := Handled(s.entries[a.entry].promise.outcome));
      ReleaseKeeps(s.(entries := s.entries[a.entry := done]), s.entries[a.entry].limited);
    }
  }

  lemma StepOwned(s: State, a: Action)
    requires Indexed(s) && Owned(s) && Calm(s, a) && s.enabled == s.regular
    ensures Owned(Next(s, a))
    ensures var s' := Next(s, a); s'.enabled == s'.regular == s.regular && s'.lapsed == s.lapsed
  {
    CalmMode(s, a);
    match a
    case Register(i, now) =>
      if i < |s.adds| && s.adds[i].id.Some? {
        OwnedRegister(s, i, now);
      }
    case SetStatus(id, status) =>
      if Listed(s, id) {
        OwnedChange(s, s.active[id], Current(s, id).(status := status));
      }
    case Stop(id) =>
      if Listed(s, id) {
        if Current(s, id).status == Waiting {
          OwnedDrop(s, id);
        } else {
          OwnedChange(s, s.active[id], SettleEntry(Current(s, id), Rejected));
        }
      }
    case Finalize(id) =>
      if Listed(s, id) {
        OwnedChange(s, s.active[id], SettleEntry(Current(s, id), Resolved));
      }
    case Handle(e) =>
      if e < |s.entries| && s.entries[e].promise.Settled? {
        OwnedHandle(s, e);
      }
    case _ =>
      QueueKeepsList(s, a);
      OwnedUntouched(s, Next(s, a));
  }

  lemma {:induction false} CalmRunOwned(c: Config, run: seq<Action>)
    requires CalmRun(Init(c), run)
    ensures var s := Run(Init(c), run); Owned(s) && s.enabled == s.regular == c.regular && !s.lapsed
  {
    if run != [] {
      AlwaysIndexed(c, run[..|run| - 1]);
      CalmRunOwned(c, run[..|run| - 1]);
      StepOwned(Run(Init(c), run[..|run| - 1]), run[|run| - 1]);
    }
  }

  /** The listed executions that hold a slot. */
  ghost function ListedHolding(s: State): set<ExecutionId> {
    set id | id in s.active && Listed(s, id) && EntryHolds(Current(s, id))
  }

  ghost function HoldingBelow(s: State, n: nat): set<ExecutionId> {
    set id | id in s.active && Listed(s, id) && s.active[id] < n && EntryHolds(Current(s, id))
  }

  lemma {:induction false} ListedCount(s: State, n: nat)
    requires Indexed(s) && Owned(s) && n <= |s.entries|
    ensures Count(s.entries[..n], EntryHolds) == |HoldingBelow(s, n)|
  {
    if n == 0 {
      assert HoldingBelow(s, 0) == {};
    } else {
      var e := s.entries[n - 1];
      assert s.entries[..n] == s.entries[..n - 1] + [e];
      CountAppend(s.entries[..n - 1], e, EntryHolds);
      ListedCount(s, n - 1);
      if EntryHolds(e) {
        assert IsCurrent(s, n - 1);
        assert HoldingBelow(s, n) == HoldingBelow(s, n - 1) + {e.id};
      } else {
        assert HoldingBelow(s, n) == HoldingBelow(s, n - 1);
      }
    }
  }

  /** On every calm run the slots in use are the reserved calls under way plus the unsettled listed executions. */
  lemma CalmConservation(c: Config, run: seq<Action>)
    requires CalmRun(Init(c), run)
    ensures var s := Run(Init(c), run);
      && Held(s) == Count(s.adds, AddHolds) + |ListedHolding(s)|
      && (c.regular ==> s.capacity + Count(s.adds, AddHolds) + |ListedHolding(s)| + |s.queue| == c.limit)
  {
    AlwaysIndexed(c, run);
    CalmRunOwned(c, run);
    SlotConservation(c, run);
    var s := Run(Init(c), run);
    ListedCount(s, |s.entries|);
    assert s.entries[..|s.entries|] == s.entries;
    assert ListedHolding(s) == HoldingBelow(s, |s.entries|);
  }

  // ---- Failed calls, settled promises, start times ----

  /** The state with one more call. */
  function WithAdd(s: State, add: Add, capacity: int): State {
    s.(adds := s.adds + [add], capacity := capacity)
  }

  /** A call gets through at once, and nobody waits who could take the slot it gives back. */
  predicate RoomFor(s: State, limited: bool) {
    s.enabled && limited ==> s.queue == [] && s.capacity > 0
  }

  lemma GrantedAtOnce(s: State, id: ExecutionId, limited: bool)
    requires s.enabled && limited ==> s.capacity > 0
    ensures Next(s, BeginResume(id, limited)) ==
            WithAdd(s, Add(Some(id), limited, Granted), s.capacity - One(s.enabled && limited))
  {
    assert (s.adds + [Add(Some(id), limited, Creating)])[|s.adds| := Add(Some(id), limited, Granted)]
        == s.adds + [Add(Some(id), limited, Granted)];
  }

  lemma FailedLast(s: State, add: Add, capacity: int)
    requires (s.enabled && add.limited ==> s.queue == []) && add.phase == Granted
    ensures Next(WithAdd(s, add, capacity), Fail(|s.adds|)) ==
            WithAdd(s, add.(phase := Failed), capacity + One(s.enabled && add.limited))
  {
    assert (s.adds + [add])[|s.adds| := add.(phase := Failed)] == s.adds + [add.(phase := Failed)];
  }

  lemma CreatedAtOnce(s: State, id: ExecutionId, limited: bool)
    ensures Next(WithAdd(s, Add(None, limited, Creating), s.capacity), Created(|s.adds|, id)) ==
            Next(s, BeginResume(id, limited))
  {
    assert (s.adds + [Add(None, limited, Creating)])[|s.adds| := Add(Some(id), limited, Creating)]
        == s.adds + [Add(Some(id), limited, Creating)];
  }

  /** A resuming call that gets its slot at once and then fails leaves only a record of the failed call. */
  lemma FailedAddUndone(s: State, id: ExecutionId, limited: bool)
    requires RoomFor(s, limited)
    ensures Run(s, [BeginResume(id, limited), Fail(|s.adds|)]) == WithAdd(s, Add(Some(id), limited, Failed), s.capacity)
  {
    RunTwo(s, BeginResume(id, limited), Fail(|s.adds|));
    ResumeThenFail(s, id, limited);
  }

  lemma ResumeThenFail(s: State, id: ExecutionId, limited: bool)
    requires RoomFor(s, limited)
    ensures Next(Next(s, BeginResume(id, limited)), Fail(|s.adds|)) ==
            WithAdd(s, Add(Some(id), limited, Failed), s.capacity)
  {
    GrantedAtOnce(s, id, limited);
    FailedLast(s, Add(Some(id), limited, Granted), s.capacity - One(s.enabled && limited));
  }

  /** So does a call for a new execution that fails once its row is created. */
  lemma FailedNewAddUndone(s: State, id: ExecutionId, limited: bool)
    requires RoomFor(s, limited)
    ensures Run(s, [BeginNew(limited), Created(|s.adds|, id), Fail(|s.adds|)]) ==
            WithAdd(s, Add(Some(id), limited, Failed), s.capacity)
  {
    RunThree(s, BeginNew(limited), Created(|s.adds|, id), Fail(|s.adds|));
    CreatedAtOnce(s, id, limited);
    ResumeThenFail(s, id, limited);
  }

  lemma RunThree(s: State, a: Action, b: Action, c: Action)
    ensures Run(s, [a, b, c]) == Next(Next(Next(s, a), b), c)
  {
    assert [a, b, c][..2] == [a, b];
    RunTwo(s, a, b);
  }

  /** And one whose row is never created, which has not come to the limit yet. */
  lemma UncreatedAddUndone(s: State, limited: bool)
    ensures Run(s, [BeginNew(limited), Fail(|s.adds|)]) == WithAdd(s, Add(None, limited, Failed), s.capacity)
  {
    RunTwo(s, BeginNew(limited), Fail(|s.adds|));
    assert (s.adds + [Add(None, limited, Creating)])[|s.adds| := Add(None, limited, Failed)]
        == s.adds + [Add(None, limited, Failed)];
  }

  lemma RunTwo(s: State, a: Action, b: Action)
    ensures Run(s, [a, b]) == Next(Next(s, a), b)
  {
    assert [a, b][..1] == [a] && [a][..0] == [];
    assert Run(s, [a]) == Next(s, a);
  }

  /** With other calls in between, failing call `i` returns exactly its own slot,
      which goes to the head of the queue. */
  lemma FailReturnsOwnSlot(s: State, i: nat, limit: nat)
    requires SlotsBalance(s, limit) && s.enabled && i < |s.adds|
    ensures var s' := Next(s, Fail(i));
      && s'.active == s.active && s'.entries == s.entries
      && (s.adds[i].phase == Granted ==> s'.adds[i].phase == Failed)
      && Held(s') + One(AddHolds(s.adds[i])) == Held(s) + One(AddHolds(s.adds[i]) && s.queue != [])
      && (AddHolds(s.adds[i]) && s.queue != [] ==> s'.adds[s.queue[0]].phase == Granted && s'.queue == s.queue[1..])
  {
    SetAdd(s, i, s.adds[i].(phase := Failed));
    if s.adds[i].phase == Granted {
      GrantedNotQueued(s, i);
      ReleaseHeld(WithPhase(s, i, Failed), s.adds[i].limited);
    }
  }

  lemma GrantedNotQueued(s: State, i: nat)
    requires QueueSound(s) && i < |s.adds| && s.adds[i].phase == Granted
    ensures QueueSound(WithPhase(s, i, Failed)) && i !in s.queue
  {
    assert i !in s.queue;
  }

  lemma ReleaseHeld(s: State, held: bool)
    requires QueueSound(s)
    ensures Held(Release(s, held)) == Held(s) + One(s.enabled && held && s.queue != [])
    ensures Release(s, held).entries == s.entries && Release(s, held).active == s.active
  {
    if s.enabled && held && s.queue != [] {
      SetAdd(s, s.queue[0], s.adds[s.queue[0]].(phase := Granted));
    }
  }

  /** Cancelled or finished, an execution leaves the list and its slot is given back once: to the first queued call,
      or to the free ones. A second callback would do nothing. */
  lemma EndReturnsSlot(s: State, id: ExecutionId, cancelled: bool)
    requires QueueSound(s) && Indexed(s) && Listed(s, id)
    requires Current(s, id).promise.Pending? && Current(s, id).status != Waiting
    ensures var e := s.active[id];
      var s' := Next(Next(s, if cancelled then Stop(id) else Finalize(id)), Handle(e));
      && s'.active == s.active - {id}
      && s'.entries == s.entries[e := s.entries[e].(promise := Handled(if cancelled then Rejected else Resolved))]
      && Held(s') + One(s.entries[e].limited) == Held(s) + One(s.enabled && s.entries[e].limited && s.queue != [])
      && Next(s', Handle(e)) == s'
  {
    var e, outcome := s.active[id], if cancelled then Rejected else Resolved;
    var settled := s.entries[e].(promise := Settled(outcome));
    var s1 := s.(entries := s.entries[e := settled]);
    SettleSteps(s, id);
    SettledThenHandled(s, e, outcome);
  }

  lemma SettledThenHandled(s: State, e: nat, outcome: Outcome)
    requires QueueSound(s) && e < |s.entries| && s.entries[e].promise.Pending? && s.entries[e].status != Waiting
    ensures var s1 := s.(entries := s.entries[e := s.entries[e].(promise := Settled(outcome))]);
      var s' := Next(s1, Handle(e));
      && s'.active == s.active - {s.entries[e].id}
      && s'.entries == s.entries[e := s.entries[e].(promise := Handled(outcome))]
      && Held(s') + One(s.entries[e].limited) == Held(s) + One(s.enabled && s.entries[e].limited && s.queue != [])
      && Next(s', Handle(e)) == s'
  {
    var settled := s.entries[e].(promise := Settled(outcome));
    var done := settled.(promise := Handled(outcome));
    var s1 := s.(entries := s.entries[e := settled]);
    SetEntry(s, e, settled);
    HandleReturnsSlot(s1, e);
    assert s.entries[e := settled][e := done] == s.entries[e := done];
    assert Next(s1, Handle(e)) == HandleEntry(s1, e);
  }

  lemma SettleSteps(s: State, id: ExecutionId)
    requires Listed(s, id) && Current(s, id).promise.Pending? && Current(s, id).status != Waiting
    ensures Next(s, Stop(id)) == WithCurrent(s, id, Current(s, id).(promise := Settled(Rejected)))
    ensures Next(s, Finalize(id)) == WithCurrent(s, id, Current(s, id).(promise := Settled(Resolved)))
  {
  }

  lemma HandleReturnsSlot(s: State, e: nat)
    requires QueueSound(s) && e < |s.entries| && s.entries[e].promise.Settled? && s.entries[e].status != Waiting
    ensures var s' := HandleEntry(s, e);
      && s'.active == s.active - {s.entries[e].id}
      && s'.entries == s.entries[e := s.entries[e].(promise := Handled(s.entries[e].promise.outcome))]
      && Held(s') + One(s.entries[e].limited) == Held(s) + One(s.enabled && s.entries[e].limited && s.queue != [])
  {
    var done := s.entries[e].(promise := Handled(s.entries[e].promise.outcome));
    SetEntry(s, e, done);
    ReleaseHeld(s.(entries := s.entries[e := done]), done.limited);
  }

  /** Stopping an execution takes it off the list, at once if it waits, otherwise with its callback; all others stay. */
  lemma StoppedIsGone(s: State, id: ExecutionId)
    requires Indexed(s) && Listed(s, id)
    requires Current(s, id).status == Waiting || !Current(s, id).promise.Handled?
    ensures var s' := Next(Next(s, Stop(id)), Handle(s.active[id]));
      && s'.active == s.active - {id}
      && forall e :: 0 <= e < |s.entries| && e != s.active[id] ==> e < |s'.entries| && s'.entries[e] == s.entries[e]
  {
    var e := s.active[id];
    var s1 := Next(s, Stop(id));
    StopListed(s, id);
    if s1.entries[e].promise.Settled? {
      HandleEffect(s1, e);
    }
  }

  lemma StopListed(s: State, id: ExecutionId)
    requires Indexed(s) && Listed(s, id)
    ensures var e, s1 := s.active[id], Next(s, Stop(id));
      && |s1.entries| == |s.entries| && s1.entries[e].status == s.entries[e].status && s1.entries[e].id == id
      && s1.active == (if s.entries[e].status == Waiting then s.active - {id} else s.active)
      && (s.entries[e].status == Waiting || s.entries[e].promise.Handled? || s1.entries[e].promise.Settled?)
      && forall k :: 0 <= k < |s.entries| && k != e ==> s1.entries[k] == s.entries[k]
  {
  }

  /** What every step leaves of an entry. */
  ghost predicate KeptEntry(old_: Entry, new_: Entry) {
    && new_.id == old_.id && new_.startedAt == old_.startedAt && new_.limited == old_.limited
    && (!old_.promise.Pending? ==> !new_.promise.Pending? && new_.promise.outcome == old_.promise.outcome)
    && (old_.promise.Handled? ==> new_.promise == old_.promise)
  }

  lemma StepKeepsEntry(s: State, a: Action, e: nat)
    requires e < |s.entries|
    ensures e < |Next(s, a).entries| && KeptEntry(s.entries[e], Next(s, a).entries[e])
  {
    if a.Shutdown? {
      RemoveAllKeeps(ShutdownPass(s, a.cancelAll));
    } else if a.Handle? {
      HandleKeepsEntry(s, a.entry, e);
    } else if OfQueue(a) {
      QueueKeepsList(s, a);
    } else {
      ListStepKeepsEntry(s, a, e);
    }
  }

  lemma ListStepKeepsEntry(s: State, a: Action, e: nat)
    requires e < |s.entries| && (a.Register? || a.SetStatus? || a.Stop? || a.Finalize?)
    ensures e < |Next(s, a).entries| && KeptEntry(s.entries[e], Next(s, a).entries[e])
  {
  }

  lemma HandleKeepsEntry(s: State, k: nat, e: nat)
    requires e < |s.entries|
    ensures var s' := Next(s, Handle(k)); e < |s'.entries| && KeptEntry(s.entries[e], s'.entries[e])
  {
    if k < |s.entries| && s.entries[k].promise.Settled? {
      var done := s.entries[k].(promise := Handled(s.entries[k].promise.outcome));
      ReleaseKeeps(s.(entries := s.entries[k := done]), s.entries[k].limited);
    }
  }

  /** An entry keeps its identity and first outcome through every run, and is handled at most once. */
  lemma {:induction false} PromiseOneShot(s: State, run: seq<Action>, e: nat)
    requires e < |s.entries|
    ensures e < |Run(s, run).entries| && KeptEntry(s.entries[e], Run(s, run).entries[e])
  {
    if run != [] {
      PromiseOneShot(s, run[..|run| - 1], e);
      StepKeepsEntry(Run(s, run[..|run| - 1]), run[|run| - 1], e);
    }
  }

  /** `id` is listed after every prefix of the run. */
  ghost predicate StaysListed(s: State, run: seq<Action>, id: ExecutionId) {
    Listed(Run(s, run), id) && (run != [] ==> StaysListed(s, run[..|run| - 1], id))
  }

  /** Through any number of wait and resume cycles an execution keeps the start time of its first registration. */
  lemma {:induction false} StartTimeSurvivesResumes(s: State, run: seq<Action>, id: ExecutionId)
    requires Indexed(s) && StaysListed(s, run, id)
    ensures Indexed(Run(s, run)) && Listed(s, id)
    ensures Current(Run(s, run), id).startedAt == Current(s, id).startedAt
  {
    if run != [] {
      var front := run[..|run| - 1];
      StartTimeSurvivesResumes(s, front, id);
      StepIndexed(Run(s, front), run[|run| - 1]);
      StepKeepsStart(Run(s, front), run[|run| - 1], id);
    }
  }

  lemma StepKeepsStart(s: State, a: Action, id: ExecutionId)
    requires Indexed(s) && Listed(s, id) && Listed(Next(s, a), id)
    ensures Current(Next(s, a), id).startedAt == Current(s, id).startedAt
  {
    StepKeepsEntry(s, a, s.active[id]);
    ListedBefore(s, a);
  }

  // ---- Shutdown ----

  /** What the first pass leaves listed: all but the waiting and new entries, or all but the waiting ones, rejected. */
  lemma AfterShutdownPass(s: State, cancelAll: bool)
    requires Indexed(s)
    ensures var s', cancelling := Next(s, Shutdown(cancelAll)), s.regular && cancelAll;
      && (forall id :: id in s'.active <==>
            id in s.active && Current(s, id).status != Waiting && (cancelling || Current(s, id).status != New))
      && (forall id :: id in s'.active ==>
            && Listed(s', id) && Current(s', id).status == Current(s, id).status != Waiting
            && (!cancelling ==> Current(s', id) == Current(s, id) && Current(s', id).status != New)
            && (cancelling ==> !Current(s', id).promise.Pending?))
  {
    RemoveAllKeeps(ShutdownPass(s, cancelAll));
  }

  lemma PassStart(s: State, cancelAll: bool)
    ensures PassBut(s, cancelAll, s.active.Keys) ==
            s.(enabled := s.enabled && !s.regular, lapsed := s.lapsed || s.regular)
  {
    var s' := PassBut(s, cancelAll, s.active.Keys);
    assert s'.active == s.active && s'.entries == s.entries;
  }

  ghost function PassById(s: State, id: ExecutionId, cancelling: bool): State
    requires Listed(s, id)
  {
    if cancelling then StopById(s, id)
    else if Dropped(Current(s, id).status, false) then s.(active := s.active - {id})
    else s
  }

  lemma PassStep(s: State, cancelAll: bool, todo: set<ExecutionId>, id: ExecutionId)
    requires Indexed(s) && id in todo && todo <= s.active.Keys
    ensures var before := PassBut(s, cancelAll, todo);
      && Listed(before, id) && Current(before, id) == Current(s, id)
      && PassBut(s, cancelAll, todo - {id}) == PassById(before, id, s.regular && cancelAll)
  {
    var cancelling := s.regular && cancelAll;
    var before, after := PassBut(s, cancelAll, todo), PassBut(s, cancelAll, todo - {id});
    forall e | 0 <= e < |s.entries| && e != s.active[id]
      ensures after.entries[e] == before.entries[e]
    {
      assert IsCurrent(s, e) ==> s.entries[e].id != id;
    }
    if cancelling && Current(s, id).status != Waiting {
      assert after.active == before.active;
      assert after.entries == before.entries[s.active[id] := SettleEntry(Current(s, id), Rejected)];
    } else {
      assert after.entries == before.entries;
      assert after.active == if DropsListed(s, id, cancelling) then before.active - {id} else before.active;
    }
  }

  // ---- First come, first served ----

  predicate Waits(s: State, i: nat) {
    i < |s.adds| && s.adds[i].phase == Queued
  }

  /** Call `i` stands before call `j` in the queue. */
  ghost predicate Ahead(s: State, i: nat, j: nat) {
    exists k, l :: 0 <= k < l < |s.queue| && s.queue[k] == i && s.queue[l] == j
  }

  predicate IsWithdrawn(s: State, i: nat) {
    i < |s.adds| && s.adds[i].phase == Withdrawn
  }

  lemma AheadAppend(s: State, s': State, x: nat, i: nat, j: nat)
    requires Ahead(s, i, j) && s'.queue == s.queue + [x]
    ensures Ahead(s', i, j)
  {
    var k, l :| 0 <= k < l < |s.queue| && s.queue[k] == i && s.queue[l] == j;
    assert s'.queue[k] == i && s'.queue[l] == j;
  }

  lemma ReserveKeepsOrder(s: State, x: nat, i: nat, j: nat)
    requires Ahead(s, i, j) && x < |s.adds|
    ensures Ahead(Reserve(s, x), i, j)
  {
    if Reserve(s, x).queue == s.queue + [x] {
      AheadAppend(s, Reserve(s, x), x, i, j);
    }
  }

  /** A returned slot goes to the front, so the order of the others stays. */
  lemma ReleaseKeepsOrder(s: State, held: bool, i: nat, j: nat)
    requires QueueSound(s) && Ahead(s, i, j)
    ensures var s' := Release(s, held); (Waits(s', i) ==> Ahead(s', i, j)) && (IsWithdrawn(s, j) ==> IsWithdrawn(s', j))
  {
    var k, l :| 0 <= k < l < |s.queue| && s.queue[k] == i && s.queue[l] == j;
    var s' := Release(s, held);
    if s'.queue != s.queue {
      if k > 0 {
        assert s'.queue[k - 1] == i && s'.queue[l - 1] == j;
      }
    }
  }

  lemma TakeKeepsOrder(s: State, x: nat, i: nat, j: nat)
    requires QueueSound(s) && Ahead(s, i, j) && x < |s.queue|
    ensures var s' := TakeFromQueue(s, x);
      if s.queue[x] == i then !Waits(s', i) else if s.queue[x] == j then IsWithdrawn(s', j) else Ahead(s', i, j)
  {
    if s.queue[x] != i && s.queue[x] != j {
      var k, l :| 0 <= k < l < |s.queue| && s.queue[k] == i && s.queue[l] == j;
      var s' := TakeFromQueue(s, x);
      var k', l' := if k < x then k else k - 1, if l < x then l else l - 1;
      RestAt(s.queue, x, k);
      RestAt(s.queue, x, l);
      assert s'.queue[k'] == i && s'.queue[l'] == j;
    } else {
      var k :| 0 <= k < |s.queue| && s.queue[k] == i;
    }
  }

  lemma RestAt(queue: seq<nat>, x: nat, k: nat)
    requires x < |queue| && k < |queue| && k != x
    ensures (queue[..x] + queue[x + 1..])[if k < x then k else k - 1] == queue[k]
  {
  }

  lemma WithdrawKeepsOrder(s: State, id: ExecutionId, i: nat, j: nat)
    requires QueueSound(s) && Ahead(s, i, j)
    ensures var s' := WithdrawQueued(s, id); Waits(s', i) ==> Ahead(s', i, j) || IsWithdrawn(s', j)
  {
    var k := FindQueued(s, id, 0);
    if s.enabled && k.Some? {
      TakeReleaseKeepsOrder(s, k.value, i, j);
    }
  }

  lemma TakeReleaseKeepsOrder(s: State, k: nat, i: nat, j: nat)
    requires QueueSound(s) && Ahead(s, i, j) && k < |s.queue|
    ensures var s' := Release(TakeFromQueue(s, k), true); Waits(s', i) ==> Ahead(s', i, j) || IsWithdrawn(s', j)
  {
    var s1 := TakeFromQueue(s, k);
    TakeKeepsQueue(s, k);
    TakeKeepsOrder(s, k, i, j);
    AheadIsQueued(s, i, j);
    if s.queue[k] == i {
      ReleaseLeavesOut(s1, i);
    } else if s.queue[k] == j {
      ReleaseLeavesOut(s1, j);
    } else {
      ReleaseKeepsOrder(s1, true, i, j);
    }
  }

  lemma AheadIsQueued(s: State, i: nat, j: nat)
    requires QueueSound(s) && Ahead(s, i, j)
    ensures Waits(s, i) && Waits(s, j)
  {
  }

  /** A returned slot changes nothing for calls outside the queue. */
  lemma ReleaseLeavesOut(s: State, i: nat)
    requires QueueSound(s) && i < |s.adds| && s.adds[i].phase != Queued
    ensures i < |Release(s, true).adds| && Release(s, true).adds[i] == s.adds[i]
  {
  }

  lemma ResumeKeepsOrder(s: State, id: ExecutionId, limited: bool, i: nat, j: nat)
    requires Ahead(s, i, j)
    ensures Ahead(Next(s, BeginResume(id, limited)), i, j)
  {
    var s1 := s.(adds := s.adds + [Add(Some(id), limited, Creating)]);
    assert s1.queue == s.queue && Ahead(s1, i, j);
    ReserveKeepsOrder(s1, |s.adds|, i, j);
  }

  lemma CreatedKeepsOrder(s: State, k: nat, id: ExecutionId, i: nat, j: nat)
    requires Ahead(s, i, j)
    ensures Ahead(Next(s, Created(k, id)), i, j)
  {
    if k < |s.adds| && s.adds[k].phase == Creating {
      var s1 := s.(adds := s.adds[k := s.adds[k].(id := Some(id))]);
      assert s1.queue == s.queue && Ahead(s1, i, j);
      ReserveKeepsOrder(s1, k, i, j);
    }
  }

  lemma FailKeepsOrder(s: State, k: nat, i: nat, j: nat)
    requires QueueSound(s) && Ahead(s, i, j)
    ensures var s' := Next(s, Fail(k)); Waits(s', i) ==> Ahead(s', i, j)
  {
    if k < |s.adds| && s.adds[k].phase == Granted {
      var s1 := WithPhase(s, k, Failed);
      GrantedNotQueued(s, k);
      assert s1.queue == s.queue && Ahead(s1, i, j);
      ReleaseKeepsOrder(s1, s.adds[k].limited, i, j);
    } else {
      assert Next(s, Fail(k)).queue == s.queue;
    }
  }

  lemma HandleKeepsOrder(s: State, e: nat, i: nat, j: nat)
    requires QueueSound(s) && Ahead(s, i, j)
    ensures var s' := Next(s, Handle(e)); Waits(s', i) ==> Ahead(s', i, j)
  {
    if e < |s.entries| && s.entries[e].promise.Settled? {
      HandledOff(s, e);
      ReleaseKeepsOrder(s, s.entries[e].limited, i, j);
    }
  }

  /** For calls and queue, handling a promise is returning its slot. */
  lemma HandledOff(s: State, e: nat)
    requires e < |s.entries| && s.entries[e].promise.Settled?
    ensures var s', s1 := Next(s, Handle(e)), Release(s, s.entries[e].limited);
      s'.adds == s1.adds && s'.queue == s1.queue
  {
  }

  /** All other steps leave calls and queue alone, except that a call may begin or register. */
  predicate OffQueue(a: Action) {
    a.BeginNew? || a.Register? || a.SetStatus? || a.Stop? || a.Finalize? || a.Shutdown? || a.ResolveEvaluation?
  }

  predicate SameOrRegistered(x: Add, y: Add) {
    y == x || (x.phase == Granted && y.phase == Registered)
  }

  lemma OffQueueStep(s: State, a: Action)
    requires ModeSound(s) && OffQueue(a)
    ensures Next(s, a).queue == s.queue
    ensures |s.adds| <= |Next(s, a).adds| <= |s.adds| + 1
    ensures forall i :: 0 <= i < |s.adds| ==> SameOrRegistered(s.adds[i], Next(s, a).adds[i])
    ensures |s.adds| < |Next(s, a).adds| ==> Next(s, a).adds[|s.adds|].phase == Creating
  {
  }

  /** While the first of two waiting calls waits, the second one stays behind it, unless it is withdrawn. */
  lemma StepKeepsOrder(s: State, a: Action, i: nat, j: nat)
    requires QueueSound(s) && ModeSound(s) && Ahead(s, i, j)
    ensures var s' := Next(s, a); Waits(s', i) ==> Ahead(s', i, j) || IsWithdrawn(s', j)
  {
    match a
    case BeginResume(id, limited) => ResumeKeepsOrder(s, id, limited, i, j);
    case Created(k, id) => CreatedKeepsOrder(s, k, id, i, j);
    case Fail(k) => FailKeepsOrder(s, k, i, j);
    case Withdraw(id) => WithdrawKeepsOrder(s, id, i, j);
    case Handle(e) => HandleKeepsOrder(s, e, i, j);
    case _ => OffQueueStep(s, a);
  }

  /** Past the queue for good. */
  predicate HasLeft(s: State, i: nat) {
    i < |s.adds| && s.adds[i].phase != Creating && s.adds[i].phase != Queued
  }

  /** Call `i` keeps waiting or leaves the queue, and never comes back. */
  predicate Leaves(s: State, s': State, i: nat) {
    && (HasLeft(s, i) ==> HasLeft(s', i))
    && (Waits(s, i) ==> Waits(s', i) || HasLeft(s', i))
    && (IsWithdrawn(s, i) ==> IsWithdrawn(s', i))
  }

  lemma ReserveLeaves(s: State, k: nat, i: nat)
    requires k < |s.adds| && s.adds[k].phase == Creating
    ensures Leaves(s, Reserve(s, k), i)
  {
  }

  lemma ReleaseLeaves(s: State, held: bool, i: nat)
    requires QueueSound(s)
    ensures Leaves(s, Release(s, held), i) && (!Waits(s, i) ==> !Waits(Release(s, held), i))
  {
  }

  lemma StepLeaves(s: State, a: Action, i: nat)
    requires QueueSound(s) && ModeSound(s)
    ensures Leaves(s, Next(s, a), i)
  {
    match a
    case BeginResume(id, limited) => ResumeLeaves(s, id, limited, i);
    case Created(k, id) => CreatedLeaves(s, k, id, i);
    case Fail(k) => FailLeaves(s, k, i);
    case Withdraw(id) => WithdrawLeaves(s, id, i);
    case Handle(e) => HandleLeaves(s, e, i);
    case _ => OffQueueStep(s, a);
  }

  lemma ResumeLeaves(s: State, id: ExecutionId, limited: bool, i: nat)
    ensures Leaves(s, Next(s, BeginResume(id, limited)), i)
  {
    var s1 := s.(adds := s.adds + [Add(Some(id), limited, Creating)]);
    assert Leaves(s, s1, i);
    ReserveLeaves(s1, |s.adds|, i);
  }

  lemma CreatedLeaves(s: State, k: nat, id: ExecutionId, i: nat)
    ensures Leaves(s, Next(s, Created(k, id)), i)
  {
    if k < |s.adds| && s.adds[k].phase == Creating {
      var s1 := s.(adds := s.adds[k := s.adds[k].(id := Some(id))]);
      assert Leaves(s, s1, i);
      ReserveLeaves(s1, k, i);
    }
  }

  lemma HandleLeaves(s: State, e: nat, i: nat)
    requires QueueSound(s)
    ensures Leaves(s, Next(s, Handle(e)), i)
  {
    if e < |s.entries| && s.entries[e].promise.Settled? {
      HandledOff(s, e);
      ReleaseLeaves(s, s.entries[e].limited, i);
    }
  }

  lemma FailLeaves(s: State, k: nat, i: nat)
    requires QueueSound(s)
    ensures Leaves(s, Next(s, Fail(k)), i)
  {
    if k < |s.adds| && s.adds[k].phase == Granted {
      GrantedNotQueued(s, k);
      ReleaseLeaves(WithPhase(s, k, Failed), s.adds[k].limited, i);
      assert Leaves(s, WithPhase(s, k, Failed), i);
    }
  }

  /** Taking one call out with the limit on lets in the first of the others; the rest stay as they are. */
  lemma TakenAndReleased(s: State, k: nat)
    requires QueueSound(s) && s.enabled && k < |s.queue|
    ensures var rest, s' := s.queue[..k] + s.queue[k + 1..], Release(TakeFromQueue(s, k), true);
      && |s'.adds| == |s.adds| && s'.adds[s.queue[k]] == s.adds[s.queue[k]].(phase := Withdrawn)
      && (rest != [] ==> rest[0] < |s.adds| && s.adds[rest[0]].phase == Queued && rest[0] != s.queue[k])
      && (forall i :: 0 <= i < |s.adds| && i != s.queue[k] ==>
            s'.adds[i] == if rest != [] && i == rest[0] then s.adds[i].(phase := Granted) else s.adds[i])
  {
    TakenCalls(s, k);
    ReleasedCalls(TakeFromQueue(s, k));
  }

  lemma TakenCalls(s: State, k: nat)
    requires QueueSound(s) && k < |s.queue|
    ensures var rest, s1 := s.queue[..k] + s.queue[k + 1..], TakeFromQueue(s, k);
      && QueueSound(s1) && s1.queue == rest && s1.enabled == s.enabled
      && s1.adds == s.adds[s.queue[k] := s.adds[s.queue[k]].(phase := Withdrawn)]
      && (rest != [] ==> rest[0] < |s.adds| && s.adds[rest[0]].phase == Queued && rest[0] != s.queue[k])
  {
    var rest := s.queue[..k] + s.queue[k + 1..];
    TakeKeepsQueue(s, k);
    QueueWithout(s.queue, k);
    HeadIn(rest);
  }

  lemma HeadIn(queue: seq<nat>)
    ensures queue != [] ==> queue[0] in queue
  {
  }

  lemma ReleasedCalls(s: State)
    requires QueueSound(s) && s.enabled
    ensures Release(s, true).adds ==
            if s.queue == [] then s.adds else s.adds[s.queue[0] := s.adds[s.queue[0]].(phase := Granted)]
  {
  }

  lemma WithdrawLeaves(s: State, id: ExecutionId, i: nat)
    requires QueueSound(s)
    ensures Leaves(s, WithdrawQueued(s, id), i) && (!Waits(s, i) ==> !Waits(WithdrawQueued(s, id), i))
  {
    var k := FindQueued(s, id, 0);
    if s.enabled && k.Some? {
      TakenAndReleased(s, k.value);
    }
  }

  /** On every run from a sound state: as long as a call waits, no call behind it is let in before it. */
  lemma {:induction false} FirstComeFirstServed(s: State, limit: nat, run: seq<Action>, i: nat, j: nat)
    requires SlotsBalance(s, limit) && Ahead(s, i, j) && Waits(s, i)
    ensures var s' := Run(s, run);
      && SlotsBalance(s', limit)
      && (Waits(s', i) || HasLeft(s', i))
      && (Waits(s', i) ==> Ahead(s', i, j) || IsWithdrawn(s', j))
  {
    if run != [] {
      var front, a := run[..|run| - 1], run[|run| - 1];
      FirstComeFirstServed(s, limit, front, i, j);
      var s1 := Run(s, front);
      StepBalances(s1, a, limit);
      StepLeaves(s1, a, i);
      StepLeaves(s1, a, j);
      if Waits(s1, i) && Ahead(s1, i, j) {
        StepKeepsOrder(s1, a, i, j);
      }
    }
  }

  /** A call that starts to wait stands behind all that wait already. */
  lemma QueuesLast(s: State, a: Action, i: nat, j: nat)
    requires QueueSound(s) && ModeSound(s) && Waits(s, i) && !Waits(s, j)
    ensures Waits(Next(s, a), i) && Waits(Next(s, a), j) ==> Ahead(Next(s, a), i, j)
  {
    match a
    case BeginResume(id, limited) =>
      LastInQueue(s, s.(adds := s.adds + [Add(Some(id), limited, Creating)]), |s.adds|, i, j);
    case Created(k, id) =>
      if k < |s.adds| && s.adds[k].phase == Creating {
        LastInQueue(s, s.(adds := s.adds[k := s.adds[k].(id := Some(id))]), k, i, j);
      }
    case Fail(k) => NobodyComesToWait(s, a, j);
    case Withdraw(id) => WithdrawLeaves(s, id, j);
    case Handle(e) => NobodyComesToWait(s, a, j);
    case _ => OffQueueStep(s, a);
  }

  lemma NobodyComesToWait(s: State, a: Action, j: nat)
    requires QueueSound(s) && !Waits(s, j) && (a.Fail? || a.Handle?)
    ensures !Waits(Next(s, a), j)
  {
    if a.Fail? && a.add < |s.adds| && s.adds[a.add].phase == Granted {
      GrantedNotQueued(s, a.add);
      ReleaseLeaves(WithPhase(s, a.add, Failed), s.adds[a.add].limited, j);
    } else if a.Handle? && a.entry < |s.entries| && s.entries[a.entry].promise.Settled? {
      HandledOff(s, a.entry);
      ReleaseLeaves(s, s.entries[a.entry].limited, j);
    }
  }

  lemma LastInQueue(s: State, s1: State, k: nat, i: nat, j: nat)
    requires QueueSound(s) && Waits(s, i) && !Waits(s, j) && k < |s1.adds| && s1.adds[k].phase == Creating
    requires s1.queue == s.queue && s1.enabled == s.enabled && s1.capacity == s.capacity
    requires forall x: nat :: x < |s1.adds| ==> (Waits(s1, x) <==> Waits(s, x))
    ensures var s' := Reserve(s1, k); Waits(s', j) ==> Ahead(s', i, j)
  {
    var s' := Reserve(s1, k);
    if Waits(s', j) {
      assert j == k && s'.queue == s.queue + [k];
      assert i in s.queue;
      var l :| 0 <= l < |s.queue| && s.queue[l] == i;
      assert s'.queue[l] == i && s'.queue[|s.queue|] == j;
    }
  }

  /** With the limit on, the first of the calls that wait for `id` is withdrawn; of the other calls only the one let in,
      the first that is left, changes. */
  lemma WithdrawTakesFirst(s: State, id: ExecutionId, k: nat)
    requires QueueSound(s) && s.enabled
    requires IsQueuedFor(s, id, k) && forall l :: 0 <= l < k ==> !IsQueuedFor(s, id, l)
    ensures var s', next := Next(s, Withdraw(id)), if k == 0 then 1 else 0;
      && |s'.adds| == |s.adds|
      && s'.adds[s.queue[k]] == s.adds[s.queue[k]].(phase := Withdrawn)
      && (next < |s.queue| ==> s'.adds[s.queue[next]] == s.adds[s.queue[next]].(phase := Granted))
      && (forall i :: 0 <= i < |s.adds| && i != s.queue[k] && (next >= |s.queue| || i != s.queue[next]) ==>
            s'.adds[i] == s.adds[i])
  {
    assert FindQueued(s, id, 0) == Some(k);
    TakenAndReleased(s, k);
    var rest := s.queue[..k] + s.queue[k + 1..];
    assert |rest| == |s.queue| - 1;
    assert rest != [] ==> rest[0] == s.queue[if k == 0 then 1 else 0];
  }

  // ---- The queue during shutdown ----

  /** Emptying the queue leaves it as it is exactly when the limit is off or nobody waits. */
  lemma RemoveAllActsExactly(s: State)
    requires QueueSound(s)
    ensures RemoveAllQueued(s).queue == s.queue <==> !s.enabled || s.queue == []
    ensures !s.enabled ==> RemoveAllQueued(s) == s
  {
    if s.enabled && s.queue != [] {
      var id := s.adds[s.queue[0]].id.value;
      FirstQueuedId(s, |s.queue|);
      var ids := QueuedIds(s, |s.queue|);
      assert IsQueuedFor(s, id, 0);
      var s1 := WithdrawQueued(s, id);
      assert |s1.queue| < |s.queue|;
      WithdrawEachKeeps(s1, ids[1..]);
    }
  }

  ghost predicate WaitsFor(s: State, id: ExecutionId) {
    exists k :: IsQueuedFor(s, id, k)
  }

  /** No two waiting calls are for one execution. */
  ghost predicate DistinctIds(s: State) {
    forall k, l :: 0 <= k < l < |s.queue| && s.queue[k] < |s.adds| && s.queue[l] < |s.adds| ==>
      s.adds[s.queue[k]].id != s.adds[s.queue[l]].id
  }

  /** With the limit on, withdrawing all leaves nobody waiting, if no two calls wait for one execution. */
  lemma RemoveAllEmpties(s: State)
    requires QueueSound(s) && s.enabled && DistinctIds(s)
    ensures RemoveAllQueued(s).queue == []
  {
    IdsCover(s, |s.queue|);
    EachWithdrawn(s, QueuedIds(s, |s.queue|));
  }

  lemma {:induction false} IdsCover(s: State, n: nat)
    requires QueueSound(s) && n <= |s.queue|
    ensures forall k :: 0 <= k < n ==> s.adds[s.queue[k]].id.value in QueuedIds(s, n)
  {
    if n > 0 {
      IdsCover(s, n - 1);
    }
  }

  lemma {:induction false} EachWithdrawn(s: State, ids: seq<ExecutionId>)
    requires QueueSound(s) && s.enabled && DistinctIds(s)
    requires forall i :: i in s.queue ==> s.adds[i].id.value in ids
    ensures WithdrawEach(s, ids).queue == []
    decreases |ids|
  {
    HeadIn(s.queue);
    if ids != [] {
      var s' := WithdrawQueued(s, ids[0]);
      FewerWait(s, ids[0]);
      forall i | i in s'.queue
        ensures s'.adds[i].id.value in ids[1..]
      {
        var k :| 0 <= k < |s'.queue| && s'.queue[k] == i;
        assert s'.adds[i].id != Some(ids[0]) && s'.adds[i].id.value in ids;
      }
      EachWithdrawn(s', ids[1..]);
    }
  }

  /** After withdrawing `id` those left waited before, and not for `id`. */
  lemma FewerWait(s: State, id: ExecutionId)
    requires QueueSound(s) && s.enabled && DistinctIds(s)
    ensures var s' := WithdrawQueued(s, id);
      && QueueSound(s') && s'.enabled && DistinctIds(s')
      && forall k :: 0 <= k < |s'.queue| ==>
           s'.adds[s'.queue[k]].id != Some(id) && s'.queue[k] in s.queue && s'.adds[s'.queue[k]] == s.adds[s'.queue[k]]
  {
    var k := FindQueued(s, id, 0);
    if k.Some? {
      var s1 := TakeFromQueue(s, k.value);
      TakeKeepsQueue(s, k.value);
      TakeLeavesOthers(s, id, k.value);
      ReleaseFewer(s1, id);
    } else {
      forall l | 0 <= l < |s.queue|
        ensures s.adds[s.queue[l]].id != Some(id)
      {
        assert !IsQueuedFor(s, id, l);
      }
    }
  }

  lemma TakeLeavesOthers(s: State, id: ExecutionId, k: nat)
    requires QueueSound(s) && DistinctIds(s) && IsQueuedFor(s, id, k)
    ensures var s1 := TakeFromQueue(s, k);
      && DistinctIds(s1)
      && forall l :: 0 <= l < |s1.queue| ==>
           s1.adds[s1.queue[l]].id != Some(id) && s1.queue[l] in s.queue && s1.adds[s1.queue[l]] == s.adds[s1.queue[l]]
  {
    var s1 := TakeFromQueue(s, k);
    forall l | 0 <= l < |s1.queue|
      ensures s1.queue[l] == s.queue[if l < k then l else l + 1] && s1.queue[l] != s.queue[k]
    {
    }
  }

  lemma ReleaseFewer(s: State, id: ExecutionId)
    requires QueueSound(s) && DistinctIds(s)
    requires forall l :: 0 <= l < |s.queue| ==> s.adds[s.queue[l]].id != Some(id)
    ensures var s' := Release(s, true);
      && QueueSound(s') && s'.enabled == s.enabled && DistinctIds(s')
      && forall l :: 0 <= l < |s'.queue| ==>
           s'.adds[s'.queue[l]].id != Some(id) && s'.queue[l] in s.queue && s'.adds[s'.queue[l]] == s.adds[s'.queue[l]]
  {
    ReleaseSound(s, true);
    if s.enabled && s.queue != [] {
      ReleasedRest(s);
      var s' := Release(s, true);
      assert forall l :: 0 <= l < |s'.queue| ==> s'.adds[s'.queue[l]] == s.adds[s.queue[l + 1]];
    }
  }

  lemma ReleasedRest(s: State)
    requires QueueSound(s) && s.enabled && s.queue != []
    ensures var s' := Release(s, true);
      && s'.queue == s.queue[1..]
      && forall l :: 0 <= l < |s'.queue| ==>
           s'.queue[l] == s.queue[l + 1] && s'.adds[s'.queue[l]] == s.adds[s'.queue[l]]
  {
  }

  lemma ReleaseSound(s: State, held: bool)
    requires QueueSound(s)
    ensures QueueSound(Release(s, held)) && Release(s, held).enabled == s.enabled
  {
    var s' := Release(s, held);
    if s'.queue != s.queue {
      assert forall l :: 0 <= l < |s'.queue| ==> s'.queue[l] == s.queue[l + 1];
      forall i | 0 <= i < |s'.adds| && s'.adds[i].phase == Queued
        ensures i in s'.queue
      {
        assert i in s.queue && i != s.queue[0];
      }
    }
  }

  lemma {:induction false} FirstQueuedId(s: State, n: nat)
    requires QueueSound(s) && 0 < n <= |s.queue|
    ensures QueuedIds(s, n) != [] && QueuedIds(s, n)[0] == s.adds[s.queue[0]].id.value
  {
    if n > 1 {
      FirstQueuedId(s, n - 1);
    } else {
      assert QueuedIds(s, 0) == [];
    }
  }

  /** On every run a shutdown finds the limit off when it comes to empty the queue: no queued call is withdrawn. */
  lemma ShutdownKeepsQueue(c: Config, run: seq<Action>, cancelAll: bool)
    ensures var s := Run(Init(c), run);
      var s' := Next(s, Shutdown(cancelAll));
      !ShutdownPass(s, cancelAll).enabled && s'.queue == s.queue && s'.adds == s.adds && !s'.enabled
  {
    SlotConservation(c, run);
    ShutdownBalances(Run(Init(c), run), cancelAll, c.limit);
  }

  /** The step learns the limit for evaluations and switches limits on. */
  ghost predicate SwitchesOn(s: State, a: Action) {
    a.ResolveEvaluation? && a.limited && s.regular && !s.resolved
  }

  ghost predicate NeverSwitchesOn(s: State, run: seq<Action>) {
    run != [] ==>
      NeverSwitchesOn(s, run[..|run| - 1]) && !SwitchesOn(Run(s, run[..|run| - 1]), run[|run| - 1])
  }

  /** The limit is off after every prefix of the run. */
  ghost predicate StaysOff(s: State, run: seq<Action>) {
    !Run(s, run).enabled && (run != [] ==> StaysOff(s, run[..|run| - 1]))
  }

  /** A limit that is off stays off exactly until the limit for evaluations is learnt. */
  lemma {:induction false} StaysOffExactly(s: State, run: seq<Action>)
    requires !s.enabled
    ensures StaysOff(s, run) <==> NeverSwitchesOn(s, run)
  {
    if run != [] {
      StaysOffExactly(s, run[..|run| - 1]);
      if StaysOff(s, run[..|run| - 1]) {
        StepOff(Run(s, run[..|run| - 1]), run[|run| - 1]);
      }
    }
  }

  lemma StepOff(s: State, a: Action)
    requires !s.enabled
    ensures Next(s, a).enabled <==> SwitchesOn(s, a)
  {
    if OfQueue(a) && !a.ResolveEvaluation? {
      QueueKeepsList(s, a);
    }
  }

  /** While the limit is off no slot is handed on: a queued call stays queued. */
  lemma {:induction false} QueuedStayQueued(s: State, run: seq<Action>, i: nat)
    requires StaysOff(s, run) && i < |s.adds| && s.adds[i].phase == Queued
    ensures var s' := Run(s, run); i < |s'.adds| && s'.adds[i] == s.adds[i]
  {
    if run != [] {
      QueuedStayQueued(s, run[..|run| - 1], i);
      QueuedStep(Run(s, run[..|run| - 1]), run[|run| - 1], i);
    }
  }

  lemma QueuedStep(s: State, a: Action, i: nat)
    requires !s.enabled && i < |s.adds| && s.adds[i].phase == Queued
    ensures i < |Next(s, a).adds| && Next(s, a).adds[i] == s.adds[i]
  {
  }

  /** Call `i` waits before the step and has got through after it. */
  predicate LetIn(s: State, s': State, i: nat) {
    i < |s.adds| && s.adds[i].phase == Queued && i < |s'.adds| && s'.adds[i].phase == Granted
  }

  ghost predicate LetsSomeIn(s: State, a: Action) {
    exists i: nat :: LetIn(s, Next(s, a), i)
  }

  /** With the limit on and a call waiting a slot is given back, or a call withdrawn ahead of another one. */
  ghost predicate HandsOn(s: State, a: Action) {
    && s.enabled && s.queue != []
    && match a
       case Fail(i) => i < |s.adds| && AddHolds(s.adds[i])
       case Handle(e) => e < |s.entries| && s.entries[e].promise.Settled? && s.entries[e].limited
       case Withdraw(id) => FindQueued(s, id, 0).Some? && |s.queue| >= 2
       case _ => false
  }

  /** A returned slot lets in the first queued call and no other. */
  lemma ReleaseLetsIn(s: State, held: bool, i: nat)
    requires QueueSound(s)
    ensures LetIn(s, Release(s, held), i) <==> s.enabled && held && s.queue != [] && i == s.queue[0]
  {
  }

  lemma ReserveLetsNobodyIn(s: State, k: nat, i: nat)
    requires k < |s.adds| && s.adds[k].phase == Creating
    ensures !LetIn(s, Reserve(s, k), i)
  {
  }

  lemma FailLetsIn(s: State, k: nat)
    requires QueueSound(s)
    ensures LetsSomeIn(s, Fail(k)) <==> HandsOn(s, Fail(k))
  {
    if k < |s.adds| && s.adds[k].phase == Granted {
      GrantedNotQueued(s, k);
      var s1 := WithPhase(s, k, Failed);
      assert Next(s, Fail(k)) == Release(s1, s.adds[k].limited);
      forall i: nat
        ensures LetIn(s, Next(s, Fail(k)), i) <==> LetIn(s1, Release(s1, s.adds[k].limited), i)
      {
      }
      if HandsOn(s, Fail(k)) {
        ReleaseLetsIn(s1, s.adds[k].limited, s.queue[0]);
        assert LetIn(s, Next(s, Fail(k)), s.queue[0]);
      } else {
        forall i: nat
          ensures !LetIn(s, Next(s, Fail(k)), i)
        {
          ReleaseLetsIn(s1, s.adds[k].limited, i);
        }
      }
    }
  }

  lemma HandleLetsIn(s: State, e: nat)
    requires QueueSound(s)
    ensures LetsSomeIn(s, Handle(e)) <==> HandsOn(s, Handle(e))
  {
    if e < |s.entries| && s.entries[e].promise.Settled? {
      var s1 := s.(entries := s.entries[e := s.entries[e].(promise := Handled(s.entries[e].promise.outcome))]);
      assert Next(s, Handle(e)).adds == Release(s1, s.entries[e].limited).adds;
      if HandsOn(s, Handle(e)) {
        ReleaseLetsIn(s1, s.entries[e].limited, s.queue[0]);
        assert LetIn(s, Next(s, Handle(e)), s.queue[0]);
      } else {
        forall i: nat
          ensures !LetIn(s, Next(s, Handle(e)), i)
        {
          ReleaseLetsIn(s1, s.entries[e].limited, i);
        }
      }
    }
  }

  lemma WithdrawLetsIn(s: State, id: ExecutionId)
    requires QueueSound(s)
    ensures LetsSomeIn(s, Withdraw(id)) <==> HandsOn(s, Withdraw(id))
  {
    var k := FindQueued(s, id, 0);
    if s.enabled && k.Some? {
      TakenThenReleased(s, k.value);
      assert Next(s, Withdraw(id)) == Release(TakeFromQueue(s, k.value), true);
      if |s.queue| >= 2 {
        assert LetIn(s, Next(s, Withdraw(id)), TakeFromQueue(s, k.value).queue[0]);
      }
    }
  }

  /** The first of the others is let in, if there is one. */
  lemma TakenThenReleased(s: State, k: nat)
    requires QueueSound(s) && s.enabled && k < |s.queue|
    ensures var s1 := TakeFromQueue(s, k);
      && |s1.queue| == |s.queue| - 1
      && forall i: nat :: LetIn(s, Release(s1, true), i) <==> s1.queue != [] && i == s1.queue[0]
  {
    var s1 := TakeFromQueue(s, k);
    TakeKeepsQueue(s, k);
    forall i: nat
      ensures LetIn(s, Release(s1, true), i) <==> s1.queue != [] && i == s1.queue[0]
    {
      ReleaseLetsIn(s1, true, i);
      TakenIsOut(s, k, i);
    }
  }

  lemma TakenIsOut(s: State, k: nat, i: nat)
    requires QueueSound(s) && k < |s.queue|
    ensures var s1 := TakeFromQueue(s, k);
      LetIn(s, Release(s1, true), i) <==> LetIn(s1, Release(s1, true), i)
  {
    var s1 := TakeFromQueue(s, k);
    TakeKeepsQueue(s, k);
    QueueWithout(s.queue, k);
    if i < |s.adds| && i != s.queue[k] {
      assert s1.adds[i] == s.adds[i];
    } else if i < |s.adds| {
      assert s1.adds[i].phase == Withdrawn && i !in s1.queue;
      assert s1.queue != [] ==> s1.queue[0] in s1.queue;
    }
  }

  /** A queued call is let in exactly when a slot is handed on. */
  lemma StepLetsIn(s: State, a: Action)
    requires QueueSound(s) && ModeSound(s)
    ensures LetsSomeIn(s, a) <==> HandsOn(s, a)
  {
    match a
    case Fail(i) => FailLetsIn(s, i);
    case Handle(e) => HandleLetsIn(s, e);
    case Withdraw(id) => WithdrawLetsIn(s, id);
    case BeginResume(id, limited) =>
      var s1 := s.(adds := s.adds + [Add(Some(id), limited, Creating)]);
      forall i: nat
        ensures !LetIn(s, Next(s, a), i)
      {
        ReserveLetsNobodyIn(s1, |s.adds|, i);
      }
    case Created(k, id) =>
      if k < |s.adds| && s.adds[k].phase == Creating {
        var s1 := s.(adds := s.adds[k := s.adds[k].(id := Some(id))]);
        forall i: nat
          ensures !LetIn(s, Next(s, a), i)
        {
          ReserveLetsNobodyIn(s1, k, i);
        }
      }
    case _ =>
  }

  ghost predicate NobodyLetIn(c: Config, run: seq<Action>) {
    run != [] ==>
      NobodyLetIn(c, run[..|run| - 1]) && !LetsSomeIn(Run(Init(c), run[..|run| - 1]), run[|run| - 1])
  }

  ghost predicate NeverHandsOn(c: Config, run: seq<Action>) {
    run != [] ==>
      NeverHandsOn(c, run[..|run| - 1]) && !HandsOn(Run(Init(c), run[..|run| - 1]), run[|run| - 1])
  }

  /** On every run, shutdowns and late evaluations included: no queued call is let in exactly when no slot is handed on
      with the limit on and a call waiting. */
  lemma {:induction false} LetInExactly(c: Config, run: seq<Action>)
    ensures NobodyLetIn(c, run) <==> NeverHandsOn(c, run)
  {
    if run != [] {
      LetInExactly(c, run[..|run| - 1]);
      SlotConservation(c, run[..|run| - 1]);
      StepLetsIn(Run(Init(c), run[..|run| - 1]), run[|run| - 1]);
    }
  }

  /** When the limit for evaluations is learnt only after the limit was switched off, the next slot that is given back
      lets the first queued call in, shutdown or not. */
  lemma LateSwitchOnLetsIn(s: State, e: nat)
    requires QueueSound(s) && s.queue != [] && !s.enabled && SwitchesOn(s, ResolveEvaluation(true))
    requires e < |s.entries| && s.entries[e].limited && s.entries[e].promise.Settled?
    ensures var s' := Next(Next(s, ResolveEvaluation(true)), Handle(e));
      s'.adds[s.queue[0]].phase == Granted && s'.queue == s.queue[1..]
  {
  }

  /** One execution runs and one call is queued; shutdown; the first evaluation; the execution ends. */
  function LateRun(a: ExecutionId, b: ExecutionId, now: int): seq<Action> {
    [BeginResume(a, true), BeginResume(b, true), Register(0, now), Shutdown(false),
     ResolveEvaluation(true), Finalize(a), Handle(0)]
  }

  /** The call queued when the shutdown begins is let in after it. */
  lemma LateSwitchOn(a: ExecutionId, b: ExecutionId, now: int)
    ensures var run := LateRun(a, b, now);
      var before, after := Run(Init(SINGLE), run[..4]), Run(Init(SINGLE), run);
      && before.lapsed && |before.adds| == 2 && before.adds[1] == Add(Some(b), true, Queued)
      && |after.adds| == 2 && after.adds[1] == Add(Some(b), true, Granted)
  {
    var run := LateRun(a, b, now);
    RunMore(Init(SINGLE), run, 3);
    LateTail(a, b, now);
    LateSetup(a, b, now);
    LatePass(a, b, now);
    LateEnd(a, b, now);
  }

  lemma LateTail(a: ExecutionId, b: ExecutionId, now: int)
    ensures var run := LateRun(a, b, now);
      Run(Init(SINGLE), run) ==
      Next(Next(Next(Run(Init(SINGLE), run[..4]), ResolveEvaluation(true)), Finalize(a)), Handle(0))
  {
    var run := LateRun(a, b, now);
    var front, tail := run[..4], [ResolveEvaluation(true), Finalize(a), Handle(0)];
    assert run == front + tail;
    RunConcat(Init(SINGLE), front, tail);
    RunThree(Run(Init(SINGLE), front), ResolveEvaluation(true), Finalize(a), Handle(0));
  }

  lemma {:induction false} RunConcat(s: State, front: seq<Action>, back: seq<Action>)
    ensures Run(s, front + back) == Run(Run(s, front), back)
  {
    if back == [] {
      assert front + back == front;
    } else {
      var n := |back| - 1;
      assert (front + back)[..|front + back| - 1] == front + back[..n];
      RunConcat(s, front, back[..n]);
    }
  }

  /** One registered execution and one queued call, before the shutdown, after it, or with the limit on again. */
  function LateState(a: ExecutionId, b: ExecutionId, now: int, enabled: bool, resolved: bool, lapsed: bool): State {
    var adds := [Add(Some(a), true, Registered), Add(Some(b), true, Queued)];
    State(map[a := 0], [Entry(a, now, Running, Pending, true)], adds, enabled, -1, [1], true, resolved, lapsed)
  }

  lemma LatePass(a: ExecutionId, b: ExecutionId, now: int)
    ensures Next(LateState(a, b, now, true, false, false), Shutdown(false)) == LateState(a, b, now, false, false, true)
    ensures Next(LateState(a, b, now, false, false, true), ResolveEvaluation(true)) ==
            LateState(a, b, now, true, true, true)
  {
    var s := LateState(a, b, now, true, false, false);
    var s' := ShutdownPass(s, false);
    assert s'.entries == s.entries && s'.active == s.active;
  }

  lemma LateEnd(a: ExecutionId, b: ExecutionId, now: int)
    ensures var s := Next(Next(LateState(a, b, now, true, true, true), Finalize(a)), Handle(0));
      |s.adds| == 2 && s.adds[1] == Add(Some(b), true, Granted)
  {
    var s := LateState(a, b, now, true, true, true);
    var s1 := Next(s, Finalize(a));
    assert s1 == s.(entries := [Entry(a, now, Running, Settled(Resolved), true)]);
  }

  /** The state before the shutdown. */
  lemma LateSetup(a: ExecutionId, b: ExecutionId, now: int)
    ensures Run(Init(SINGLE), LateRun(a, b, now)[..3]) == LateState(a, b, now, true, false, false)
  {
    var run := LateRun(a, b, now);
    var one := Init(SINGLE).(adds := [Add(Some(a), true, Granted)], capacity := 0);
    var two := one.(adds := one.adds + [Add(Some(b), true, Queued)], capacity := -1, queue := [1]);
    assert Next(Init(SINGLE), BeginResume(a, true)) == one;
    assert Next(one, BeginResume(b, true)) == two;
    RunTwo(Init(SINGLE), BeginResume(a, true), BeginResume(b, true));
    assert run[..2] == [BeginResume(a, true), BeginResume(b, true)];
    RunMore(Init(SINGLE), run, 2);
  }

  lemma RunMore(s: State, run: seq<Action>, n: nat)
    requires n < |run|
    ensures Run(s, run[..n + 1]) == Next(Run(s, run[..n]), run[n])
  {
    assert run[..n + 1][..n] == run[..n];
  }

  /** One execution ends with `status`: it is set, the promise settles, the callback runs. */
  ghost function EndOne(s: State, id: ExecutionId, status: Status): State {
    if Listed(s, id) then Next(Next(Next(s, SetStatus(id, status)), Finalize(id)), Handle(s.active[id])) else s
  }

  ghost function EndAll(s: State, ends: seq<(ExecutionId, Status)>): State
    decreases |ends|
  {
    if ends == [] then s else EndAll(EndOne(s, ends[0].0, ends[0].1), ends[1..])
  }

  lemma EndOneEffect(s: State, id: ExecutionId, status: Status)
    requires Indexed(s) && Listed(s, id) && !Current(s, id).promise.Handled?
    ensures var s' := EndOne(s, id, status);
      && Indexed(s')
      && s'.active == (if status == Waiting then s.active else s.active - {id})
      && |s'.entries| == |s.entries|
      && (forall e :: 0 <= e < |s.entries| && e != s.active[id] ==> s'.entries[e] == s.entries[e])
  {
    var e := s.active[id];
    var s1 := Next(s, SetStatus(id, status));
    var s2 := Next(s1, Finalize(id));
    StatusThenFinalize(s, id, status);
    StepIndexed(s, SetStatus(id, status));
    StepIndexed(s1, Finalize(id));
    StepIndexed(s2, Handle(e));
    HandleEffect(s2, e);
  }

  lemma StatusThenFinalize(s: State, id: ExecutionId, status: Status)
    requires Indexed(s) && Listed(s, id) && !Current(s, id).promise.Handled?
    ensures var s2 := Next(Next(s, SetStatus(id, status)), Finalize(id));
      var e := s.active[id];
      && s2.active == s.active && |s2.entries| == |s.entries|
      && s2.entries[e].id == id && s2.entries[e].status == status && s2.entries[e].promise.Settled?
      && (forall k :: 0 <= k < |s.entries| && k != e ==> s2.entries[k] == s.entries[k])
  {
  }

  lemma HandleEffect(s: State, e: nat)
    requires e < |s.entries| && s.entries[e].promise.Settled?
    ensures var s', entry := Next(s, Handle(e)), s.entries[e];
      && s'.active == (if entry.status == Waiting then s.active else s.active - {entry.id})
      && |s'.entries| == |s.entries|
      && (forall k :: 0 <= k < |s.entries| && k != e ==> s'.entries[k] == s.entries[k])
  {
  }

  /** `ends` names each listed execution once, all of them outstanding and none to end waiting. */
  ghost predicate Outstanding(s: State, ends: seq<(ExecutionId, Status)>) {
    && Indexed(s)
    && (forall id :: id in s.active ==> exists k :: 0 <= k < |ends| && ends[k].0 == id)
    && AllToEnd(s, ends)
    && (forall k :: 0 <= k < |ends| ==> ends[k].1 != Waiting)
  }

  /** The batches one after the other. */
  function Joined(rounds: seq<seq<(ExecutionId, Status)>>): seq<(ExecutionId, Status)> {
    if rounds == [] then [] else rounds[0] + Joined(rounds[1..])
  }

  /** While something is listed some round is left, and it comes first. */
  lemma SomeLeft(s: State, rounds: seq<seq<(ExecutionId, Status)>>, k: nat)
    requires k <= |rounds| && Outstanding(s, Joined(rounds[k..])) && s.active != map[]
    ensures k < |rounds| && Joined(rounds[k..]) == rounds[k] + Joined(rounds[k + 1..])
  {
    var id :| id in s.active;
    assert |Joined(rounds[k..])| > 0;
    if k < |rounds| {
      assert rounds[k..][0] == rounds[k] && rounds[k..][1..] == rounds[k + 1..];
    }
  }

  lemma NoneLeft(s: State, ends: seq<(ExecutionId, Status)>)
    requires Outstanding(s, ends) && s.active == map[]
    ensures ends == []
  {
    FirstIsListed(s, ends);
  }

  lemma FirstIsListed(s: State, ends: seq<(ExecutionId, Status)>)
    requires AllToEnd(s, ends)
    ensures ends != [] ==> ends[0].0 in s.active
  {
  }

  lemma OutstandingStep(s: State, ends: seq<(ExecutionId, Status)>)
    requires Outstanding(s, ends) && ends != []
    ensures Outstanding(EndOne(s, ends[0].0, ends[0].1), ends[1..])
    ensures |EndOne(s, ends[0].0, ends[0].1).active| < |s.active|
  {
    var s', rest := EndOne(s, ends[0].0, ends[0].1), ends[1..];
    FirstEnds(s, ends);
    assert s'.active.Keys == s.active.Keys - {ends[0].0};
    assert |s'.active.Keys| < |s.active.Keys|;
    forall id | id in s'.active
      ensures exists k :: 0 <= k < |rest| && rest[k].0 == id
    {
      LaterOne(ends, id);
    }
  }

  lemma LaterOne(ends: seq<(ExecutionId, Status)>, id: ExecutionId)
    requires ends != [] && ends[0].0 != id && exists k :: 0 <= k < |ends| && ends[k].0 == id
    ensures exists k :: 0 <= k < |ends[1..]| && ends[1..][k].0 == id
  {
    var k :| 0 <= k < |ends| && ends[k].0 == id;
    assert ends[1..][k - 1].0 == id;
  }

  lemma FirstOutstanding(s: State, ends: seq<(ExecutionId, Status)>)
    requires Outstanding(s, ends) && ends != []
    ensures Indexed(s) && ends[0].0 in s.active && Listed(s, ends[0].0) && !Current(s, ends[0].0).promise.Handled?
    ensures var s' := EndOne(s, ends[0].0, ends[0].1);
      Outstanding(s', ends[1..]) && EndAll(s', ends[1..]) == EndAll(s, ends)
  {
    OutstandingStep(s, ends);
  }

  lemma ListedApart(s: State, id: ExecutionId, other: ExecutionId)
    requires Indexed(s) && id in s.active && other in s.active && id != other
    ensures s.active[id] != s.active[other]
  {
  }

  /** The executions that end otherwise than waiting. */
  ghost function Leaving(ends: seq<(ExecutionId, Status)>): set<ExecutionId> {
    set k | 0 <= k < |ends| && ends[k].1 != Waiting :: ends[k].0
  }

  lemma LeavingFirst(ends: seq<(ExecutionId, Status)>)
    requires ends != []
    ensures Leaving(ends) == Leaving(ends[1..]) + if ends[0].1 != Waiting then {ends[0].0} else {}
  {
    var rest := ends[1..];
    forall x | x in Leaving(ends)
      ensures x in Leaving(rest) || (x == ends[0].0 && ends[0].1 != Waiting)
    {
      var k :| 0 <= k < |ends| && ends[k].1 != Waiting && ends[k].0 == x;
      if k > 0 {
        assert rest[k - 1].0 == x;
      }
    }
    forall x | x in Leaving(rest)
      ensures x in Leaving(ends)
    {
      var k :| 0 <= k < |rest| && rest[k].1 != Waiting && rest[k].0 == x;
      assert ends[k + 1].0 == x && ends[k + 1].1 != Waiting;
    }
    assert ends[0].1 != Waiting ==> ends[0].0 in Leaving(ends);
  }

  /** The executions in `ends` are different, listed and outstanding. */
  ghost predicate AllToEnd(s: State, ends: seq<(ExecutionId, Status)>) {
    && (forall k :: 0 <= k < |ends| ==> Listed(s, ends[k].0) && !Current(s, ends[k].0).promise.Handled?)
    && (forall k, l :: 0 <= k < l < |ends| ==> ends[k].0 != ends[l].0)
  }

  lemma FirstEnds(s: State, ends: seq<(ExecutionId, Status)>)
    requires Indexed(s) && AllToEnd(s, ends) && ends != []
    ensures var s' := EndOne(s, ends[0].0, ends[0].1);
      && Indexed(s') && AllToEnd(s', ends[1..])
      && s'.active.Keys == s.active.Keys - if ends[0].1 != Waiting then {ends[0].0} else {}
  {
    var s', rest := EndOne(s, ends[0].0, ends[0].1), ends[1..];
    EndOneEffect(s, ends[0].0, ends[0].1);
    forall k | 0 <= k < |rest|
      ensures Listed(s', rest[k].0) && !Current(s', rest[k].0).promise.Handled?
    {
      assert rest[k] == ends[k + 1];
      ListedApart(s, ends[0].0, rest[k].0);
    }
  }

  /** When the listed executions all end and nothing is added, exactly those that ended waiting stay listed. */
  lemma {:induction false} WaitLoopEnds(s: State, ends: seq<(ExecutionId, Status)>)
    requires Indexed(s) && AllToEnd(s, ends)
    ensures EndAll(s, ends).active.Keys == s.active.Keys - Leaving(ends)
    decreases |ends|
  {
    if ends != [] {
      FirstEnds(s, ends);
      WaitLoopEnds(EndOne(s, ends[0].0, ends[0].1), ends[1..]);
      LeavingFirst(ends);
    }
  }

  // ---- The service ----

  class ActiveExecutions {
    var activeExecutions: map<ExecutionId, nat>
    var entries: seq<Entry>
    var adds: seq<Add>
    var enabled: bool
    var capacity: int
    var queue: seq<nat>
    const regular: bool
    var evalQueueResolved: bool
    ghost var lapsed: bool

    ghost function View(): State
      reads this
    {
      State(activeExecutions, entries, adds, enabled, capacity, queue, regular, evalQueueResolved, lapsed)
    }

    ghost predicate Valid()
      reads this
    {
      Indexed(View())
    }

    constructor (c: Config)
      ensures Valid() && View() == Init(c)
    {
      activeExecutions, entries, adds := map[], [], [];
      enabled, capacity, queue := c.regular, c.limit, [];
      regular, evalQueueResolved, lapsed := c.regular, c.resolved, false;
    }

    /** The first use for evaluations, in regular mode, learns their limit. */
    method EnsureEvalQueueResolved(limited: bool)
      requires Valid()
      modifies this`enabled, this`evalQueueResolved
      ensures Valid() && View() == Next(old(View()), ResolveEvaluation(limited))
    {
      if evalQueueResolved {
        return;
      }
      evalQueueResolved := true;
      if regular && limited {
        enabled := true;
      }
    }

    /** Waits for capacity: takes a slot, or joins the queue when there is none. */
    method ReserveCapacity(i: nat)
      requires i < |adds|
      modifies this`adds, this`capacity, this`queue
      ensures View() == Reserve(old(View()), i)
    {
      if !enabled || !adds[i].limited {
        adds := adds[i := adds[i].(phase := Granted)];
        return;
      }
      capacity := capacity - 1;
      if capacity < 0 {
        queue := queue + [i];
        adds := adds[i := adds[i].(phase := Queued)];
      } else {
        adds := adds[i := adds[i].(phase := Granted)];
      }
    }

    method ReleaseCapacity(held: bool)
      modifies this`adds, this`capacity, this`queue
      ensures View() == Release(old(View()), held)
    {
      if !enabled || !held {
        return;
      }
      capacity := capacity + 1;
      if queue != [] && queue[0] < |adds| {
        var next := queue[0];
        queue := queue[1..];
        adds := adds[next := adds[next].(phase := Granted)];
      }
    }

    /** `add` without an id, up to awaiting the creation of the row. */
    method StartAdd(limited: bool) returns (i: nat)
      requires Valid()
      modifies this`adds
      ensures Valid() && i == |old(adds)| && View() == Next(old(View()), BeginNew(limited))
    {
      i := |adds|;
      adds := adds + [Add(None, limited, Creating)];
    }

    /** `add` with the id of a waiting execution, up to awaiting capacity or the conditional update. */
    method StartResume(id: ExecutionId, limited: bool) returns (i: nat)
      requires Valid()
      modifies this`adds, this`capacity, this`queue
      ensures Valid() && i == |old(adds)| && View() == Next(old(View()), BeginResume(id, limited))
    {
      i := |adds|;
      adds := adds + [Add(Some(id), limited, Creating)];
      ReserveCapacity(i);
    }

    /** The row of a new execution exists. */
    method RowCreated(i: nat, id: ExecutionId)
      requires Valid() && i < |adds| && adds[i].phase == Creating
      modifies this`adds, this`capacity, this`queue
      ensures Valid() && View() == Next(old(View()), Created(i, id))
    {
      adds := adds[i := adds[i].(id := Some(id))];
      ReserveCapacity(i);
    }

    /** The database call failed, or the row was no longer waiting. */
    method FailAdd(i: nat)
      requires Valid() && i < |adds| && (adds[i].phase == Creating || adds[i].phase == Granted)
      modifies this`adds, this`capacity, this`queue
      ensures Valid() && View() == Next(old(View()), Fail(i))
    {
      var held := adds[i].limited && adds[i].phase == Granted;
      adds := adds[i := adds[i].(phase := Failed)];
      ReleaseCapacity(held);
    }

    /** A queued execution is stopped before it ran. */
    method RemoveQueued(id: ExecutionId)
      requires Valid()
      modifies this`adds, this`capacity, this`queue
      ensures Valid() && View() == Next(old(View()), Withdraw(id))
    {
      if !enabled {
        return;
      }
      var index := 0;
      while index < |queue| && !(queue[index] < |adds| && adds[queue[index]].id == Some(id))
        invariant index <= |queue|
        invariant FindQueued(View(), id, index) == FindQueued(View(), id, 0)
      {
        index := index + 1;
      }
      if index < |queue| {
        adds := adds[queue[index] := adds[queue[index]].(phase := Withdrawn)];
        queue := queue[..index] + queue[index + 1..];
        ReleaseCapacity(true);
      }
    }

    /** The database call succeeded: the execution is listed. */
    method CompleteAdd(i: nat, now: int)
      requires Valid() && i < |adds| && adds[i].phase == Granted && adds[i].id.Some?
      modifies this`adds, this`entries, this`activeExecutions
      ensures Valid() && View() == Next(old(View()), Register(i, now))
    {
      var id := adds[i].id.value;
      var startedAt := now;
      if id in activeExecutions {
        startedAt := entries[activeExecutions[id]].startedAt;
      }
      activeExecutions := activeExecutions[id := |entries|];
      entries := entries + [Entry(id, startedAt, Running, Pending, adds[i].limited)];
      adds := adds[i := adds[i].(phase := Registered)];
      StepIndexed(old(View()), Register(i, now));
    }

    /** The callback on the settled promise. */
    method OnSettled(e: nat)
      requires Valid() && e < |entries| && entries[e].promise.Settled?
      modifies this
      ensures Valid() && View() == Next(old(View()), Handle(e))
    {
      var execution := entries[e];
      entries := entries[e := execution.(promise := Handled(execution.promise.outcome))];
      ReleaseCapacity(execution.limited);
      if execution.status != Waiting {
        activeExecutions := activeExecutions - {execution.id};
      }
      StepIndexed(old(View()), Handle(e));
    }

    /** Reports a missing execution by `found`. */
    method SetExecutionStatus(id: ExecutionId, status: Status) returns (found: bool)
      requires Valid()
      modifies this`entries
      ensures Valid() && found == (id in activeExecutions)
      ensures View() == Next(old(View()), SetStatus(id, status))
    {
      found := id in activeExecutions;
      if found {
        var e := activeExecutions[id];
        entries := entries[e := entries[e].(status := status)];
      }
    }

    method StopExecution(id: ExecutionId)
      requires Valid()
      modifies this`entries, this`activeExecutions
      ensures Valid() && View() == Next(old(View()), Stop(id))
    {
      if id !in activeExecutions {
        return;
      }
      var e := activeExecutions[id];
      if entries[e].status == Waiting {
        activeExecutions := activeExecutions - {id};
      } else {
        entries := entries[e := SettleEntry(entries[e], Rejected)];
      }
      StepIndexed(old(View()), Stop(id));
    }

    method FinalizeExecution(id: ExecutionId)
      requires Valid()
      modifies this`entries
      ensures Valid() && View() == Next(old(View()), Finalize(id))
    {
      if id in activeExecutions {
        var e := activeExecutions[id];
        entries := entries[e := SettleEntry(entries[e], Resolved)];
      }
    }

    /** One round of the first shutdown pass. */
    method PassExecution(id: ExecutionId, cancelling: bool)
      requires Valid() && id in activeExecutions
      modifies this`entries, this`activeExecutions
      ensures Valid() && View() == PassById(old(View()), id, cancelling)
    {
      var status := entries[activeExecutions[id]].status;
      if cancelling {
        StopExecution(id);
      } else if status == Waiting || status == New {
        activeExecutions := activeExecutions - {id};
      }
    }

    method ListQueued() returns (ids: seq<ExecutionId>)
      ensures ids == QueuedIds(View(), |queue|)
    {
      ids := [];
      for k := 0 to |queue|
        invariant ids == QueuedIds(View(), k)
      {
        var i := queue[k];
        if i < |adds| && adds[i].id.Some? && adds[i].id.value !in ids {
          ids := ids + [adds[i].id.value];
        }
      }
    }

    /** Withdraws every id found in the queue; does nothing when the limit is off. */
    method RemoveAll()
      requires Valid()
      modifies this`adds, this`capacity, this`queue
      ensures Valid() && View() == RemoveAllQueued(old(View()))
    {
      if !enabled {
        return;
      }
      var ids := ListQueued();
      for k := 0 to |ids|
        invariant Valid() && WithdrawEach(View(), ids[k..]) == WithdrawEach(old(View()), ids)
      {
        assert ids[k..][1..] == ids[k + 1..];
        RemoveQueued(ids[k]);
      }
    }

    /** The part of `shutdown` before its first wait. */
    method BeginShutdown(cancelAll: bool)
      requires Valid()
      modifies this
      ensures Valid() && View() == Next(old(View()), Shutdown(cancelAll))
    {
      ghost var was := View();
      if regular {
        enabled := false;
        lapsed := true;
      }
      var executionIds := activeExecutions.Keys;
      PassStart(was, cancelAll);
      while executionIds != {}
        invariant executionIds <= was.active.Keys
        invariant Valid() && View() == PassBut(was, cancelAll, executionIds)
      {
        var id :| id in executionIds;
        PassStep(was, cancelAll, executionIds, id);
        PassExecution(id, regular && cancelAll);
        executionIds := executionIds - {id};
      }
      RemoveAll();
    }

    /** One listed execution ends: its status is set, its promise settles and its callback runs. */
    method EndExecution(id: ExecutionId, status: Status)
      requires Valid() && id in activeExecutions && !Current(View(), id).promise.Handled?
      modifies this
      ensures Valid() && View() == EndOne(old(View()), id, status)
    {
      var e := activeExecutions[id];
      var found := SetExecutionStatus(id, status);
      FinalizeExecution(id);
      OnSettled(e);
    }

    /** The executions in `ends` finish; those in `rest` remain. */
    method EndRound(ends: seq<(ExecutionId, Status)>, ghost rest: seq<(ExecutionId, Status)>)
      requires Outstanding(View(), ends + rest)
      modifies this
      ensures Outstanding(View(), rest) && EndAll(View(), rest) == EndAll(old(View()), ends + rest)
      decreases |ends|
    {
      ghost var all := ends + rest;
      if ends == [] {
        assert all == rest;
        return;
      }
      assert all[0] == ends[0] && all[1..] == ends[1..] + rest;
      FirstOutstanding(View(), all);
      EndExecution(ends[0].0, ends[0].1);
      EndRound(ends[1..], rest);
    }

    /** The wait loop of `shutdown`, when in each round the executions of any batch finish and none ends waiting. */
    method AwaitExecutions(rounds: seq<seq<(ExecutionId, Status)>>)
      requires Outstanding(View(), Joined(rounds))
      modifies this
      ensures Valid() && activeExecutions == map[]
      ensures View() == EndAll(old(View()), Joined(rounds))
    {
      var k := 0;
      while activeExecutions != map[]
        invariant k <= |rounds|
        invariant Outstanding(View(), Joined(rounds[k..]))
        invariant EndAll(View(), Joined(rounds[k..])) == EndAll(old(View()), Joined(rounds))
        decreases |rounds| - k
      {
        SomeLeft(View(), rounds, k);
        EndRound(rounds[k], Joined(rounds[k + 1..]));
        k := k + 1;
      }
      NoneLeft(View(), Joined(rounds[k..]));
    }
  }
}
